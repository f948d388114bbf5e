// The fast path of the reconstruction (DoViBaker.cpp doAllQuickAndDirty):
// one pass over the enhancement-layer chroma grid that maps every base-layer
// chroma cell under it and writes the RGB pixels of that cell directly,
// with no upsampling and with the raw co-sited base-layer luma as the
// chroma-conditioning input.
module QuickAndDirty {
  import opened Planes

  /**
   * The frames the fast path reads have the layouts its shift arithmetic
   * assumes. `blS` and `elS` are the chroma subsampling of the base and
   * enhancement layers (1 for 4:2:0), `q` is 1 for a quarter-resolution
   * enhancement layer. Each enhancement chroma sample covers 2^(elS+q-blS)
   * base chroma samples per axis, which needs elS + q >= blS.
   */
  predicate Layouts(bl: Yuv, el: Yuv, blS: nat, elS: nat, q: nat)
  {
    blS <= 1 && elS <= 1 && q <= 1 && blS <= elS + q &&
    var a, hE, wE := elS + q - blS, el.u.Length0, el.u.Length1;
    el.v.Length0 == hE && el.v.Length1 == wE &&
    el.y.Length0 == Shl(hE, elS) && el.y.Length1 == Shl(wE, elS) &&
    bl.u.Length0 == Shl(hE, a) && bl.u.Length1 == Shl(wE, a) &&
    bl.v.Length0 == bl.u.Length0 && bl.v.Length1 == bl.u.Length1 &&
    bl.y.Length0 == Shl(bl.u.Length0, blS) && bl.y.Length1 == Shl(bl.u.Length1, blS)
  }

  /** The same layouts, stated on frame values. */
  predicate LayoutsV(bl: Frame, el: Frame, blS: nat, elS: nat, q: nat, hE: nat, wE: nat)
  {
    blS <= 1 && elS <= 1 && q <= 1 && blS <= elS + q &&
    var a := elS + q - blS;
    Shaped(el, Shl(hE, elS), Shl(wE, elS), hE, wE) &&
    Shaped(bl, Shl(Shl(hE, a), blS), Shl(Shl(wE, a), blS), Shl(hE, a), Shl(wE, a))
  }

  /**
   * The U sample of base chroma cell (rc, cc) on the fast path: the enhancement
   * chroma sample is the cell >> (elS + q - blS), and the chroma-conditioning
   * luma is the raw base luma at the cell's top-left corner.
   */
  function QndU(p: Processor, blS: nat, elS: nat, q: nat, bl: Frame, el: Frame, hE: nat, wE: nat, rc: nat, cc: nat): Sample
    requires LayoutsV(bl, el, blS, elS, q, hE, wE)
    requires rc < Shl(hE, elS + q - blS) && cc < Shl(wE, elS + q - blS)
  {
    var a := elS + q - blS;
    ShrBelow(rc, hE, a);
    ShrBelow(cc, wE, a);
    var blu, blv := bl.u[rc][cc], bl.v[rc][cc];
    p.processSampleU(blu, el.u[Shr(rc, a)][Shr(cc, a)], bl.y[Shl(rc, blS)][Shl(cc, blS)], blu, blv)
  }

  /** The V sample of base chroma cell (rc, cc) on the fast path, conditioned like `QndU`. */
  function QndV(p: Processor, blS: nat, elS: nat, q: nat, bl: Frame, el: Frame, hE: nat, wE: nat, rc: nat, cc: nat): Sample
    requires LayoutsV(bl, el, blS, elS, q, hE, wE)
    requires rc < Shl(hE, elS + q - blS) && cc < Shl(wE, elS + q - blS)
  {
    var a := elS + q - blS;
    ShrBelow(rc, hE, a);
    ShrBelow(cc, wE, a);
    var blu, blv := bl.u[rc][cc], bl.v[rc][cc];
    p.processSampleV(blv, el.v[Shr(rc, a)][Shr(cc, a)], bl.y[Shl(rc, blS)][Shl(cc, blS)], blu, blv)
  }

  /** The mapped luma of output pixel (Y, X): the enhancement luma is the one at (Y, X) >> q. */
  function QndLuma(p: Processor, blS: nat, elS: nat, q: nat, bl: Frame, el: Frame, hE: nat, wE: nat, Y: nat, X: nat): Sample
    requires LayoutsV(bl, el, blS, elS, q, hE, wE)
    requires Y < Shl(Shl(hE, elS + q - blS), blS) && X < Shl(Shl(wE, elS + q - blS), blS)
  {
    ElLumaBelow(Y, hE, blS, elS, q);
    ElLumaBelow(X, wE, blS, elS, q);
    p.processSampleY(bl.y[Y][X], el.y[Shr(Y, q)][Shr(X, q)])
  }

  /** Output pixel (Y, X) of the fast path: its mapped luma with the chroma of its base chroma cell (Y, X) >> blS. */
  function QndPixel(p: Processor, blS: nat, elS: nat, q: nat, bl: Frame, el: Frame, hE: nat, wE: nat, Y: nat, X: nat): Rgb
    requires LayoutsV(bl, el, blS, elS, q, hE, wE)
    requires Y < Shl(Shl(hE, elS + q - blS), blS) && X < Shl(Shl(wE, elS + q - blS), blS)
  {
    var a := elS + q - blS;
    ShrBelow(Y, Shl(hE, a), blS);
    ShrBelow(X, Shl(wE, a), blS);
    var rc, cc := Shr(Y, blS), Shr(X, blS);
    p.sample2rgb(QndLuma(p, blS, elS, q, bl, el, hE, wE, Y, X),
      QndU(p, blS, elS, q, bl, el, hE, wE, rc, cc), QndV(p, blS, elS, q, bl, el, hE, wE, rc, cc))
  }

  /** Base luma rows and columns shift by q into the enhancement luma plane. */
  lemma ElLumaBelow(Y: nat, hE: nat, blS: nat, elS: nat, q: nat)
    requires blS <= 1 && elS <= 1 && q <= 1 && blS <= elS + q
    requires Y < Shl(Shl(hE, elS + q - blS), blS)
    ensures Shr(Y, q) < Shl(hE, elS)
  {
  }

  /** The whole output image of the fast path. */
  function QndImage(p: Processor, blS: nat, elS: nat, q: nat, bl: Frame, el: Frame, hE: nat, wE: nat): (m: Image)
    requires LayoutsV(bl, el, blS, elS, q, hE, wE)
    ensures |m| == |bl.y| && forall Y :: 0 <= Y < |m| ==> |m[Y]| == Shl(Shl(wE, elS + q - blS), blS)
    ensures forall Y, X :: 0 <= Y < |m| && 0 <= X < Shl(Shl(wE, elS + q - blS), blS) ==>
      m[Y][X] == QndPixel(p, blS, elS, q, bl, el, hE, wE, Y, X)
  {
    var W := Shl(Shl(wE, elS + q - blS), blS);
    seq<seq<Rgb>>(|bl.y|, Y requires 0 <= Y < |bl.y| =>
      seq<Rgb>(W, X requires 0 <= X < W => QndPixel(p, blS, elS, q, bl, el, hE, wE, Y, X)))
  }

  /** Pixel (y, x) of an image value; a named application, so that pixel facts are only drawn where asked for. */
  function Pix(m: Image, y: nat, x: nat): Rgb
    requires y < |m| && x < |m[y]|
  {
    m[y][x]
  }

  /** `m` has `h` rows of `w` pixels each. */
  predicate IsRectImage(m: Image, h: nat, w: nat)
  {
    |m| == h && forall y :: 0 <= y < h ==> |m[y]| == w
  }

  /** `m` is, pixel by pixel, the fast path's output for these frames. */
  ghost predicate IsQndImage(m: Image, p: Processor, blS: nat, elS: nat, q: nat, bl: Frame, el: Frame, hE: nat, wE: nat)
  {
    LayoutsV(bl, el, blS, elS, q, hE, wE) &&
    var H, W := Shl(Shl(hE, elS + q - blS), blS), Shl(Shl(wE, elS + q - blS), blS);
    IsRectImage(m, H, W) &&
    forall Y, X {:trigger Pix(m, Y, X)} :: 0 <= Y < H && 0 <= X < W ==>
      Pix(m, Y, X) == QndPixel(p, blS, elS, q, bl, el, hE, wE, Y, X)
  }

  /**
   * What every stage of the fast path relies on: the layouts, the values of
   * the two source frames, and the image `T` that the pass is to produce in `dst`.
   */
  ghost predicate FastPath(dst: array2<Rgb>, blSrc: Yuv, elSrc: Yuv, blS: nat, elS: nat, q: nat, p: Processor,
                           bl: Frame, el: Frame, T: Image)
    reads blSrc.y, blSrc.u, blSrc.v, elSrc.y, elSrc.u, elSrc.v
  {
    Layouts(blSrc, elSrc, blS, elS, q) && bl == SnapYuv(blSrc) && el == SnapYuv(elSrc) &&
    dst.Length0 == blSrc.y.Length0 && dst.Length1 == blSrc.y.Length1 &&
    IsQndImage(T, p, blS, elS, q, bl, el, elSrc.u.Length0, elSrc.u.Length1) &&
    IsRectImage(T, dst.Length0, dst.Length1)
  }

  /**
   * DoViBaker.cpp doAllQuickAndDirty: visits the enhancement chroma grid row
   * by row and writes every output pixel once.
   */
  method DoAllQuickAndDirty(dst: array2<Rgb>, blSrc: Yuv, elSrc: Yuv, blS: nat, elS: nat, q: nat, p: Processor)
    requires Layouts(blSrc, elSrc, blS, elS, q)
    requires dst.Length0 == blSrc.y.Length0 && dst.Length1 == blSrc.y.Length1
    modifies dst
    ensures SnapRgb(dst) == QndImage(p, blS, elS, q, SnapYuv(blSrc), SnapYuv(elSrc), elSrc.u.Length0, elSrc.u.Length1)
  {
    ghost var bl, el := SnapYuv(blSrc), SnapYuv(elSrc);
    var elSrcHeightUV, elSrcWidthUV := elSrc.u.Length0, elSrc.u.Length1;
    ghost var T := QndImage(p, blS, elS, q, bl, el, elSrcHeightUV, elSrcWidthUV);
    FastPathStart(dst, blSrc, elSrc, blS, elS, q, p);
    var E := Pow2(elS + q);
    var y0 := 0;
    for heluv := 0 to elSrcHeightUV
      invariant y0 == Shl(heluv, elS + q)
      invariant forall Y, X :: 0 <= Y < y0 && 0 <= X < dst.Length1 ==> dst[Y, X] == T[Y][X]
    {
      assert y0 + E == Shl(heluv + 1, elS + q);
      ElRow(dst, blSrc, elSrc, blS, elS, q, p, heluv, y0, E, bl, el, T);
      y0 := y0 + E;
    }
    ImageExt(SnapRgb(dst), T, dst.Length0, dst.Length1);
  }

  /** The fast path's output image meets `FastPath` for the frames it is computed from. */
  lemma FastPathStart(dst: array2<Rgb>, blSrc: Yuv, elSrc: Yuv, blS: nat, elS: nat, q: nat, p: Processor)
    requires Layouts(blSrc, elSrc, blS, elS, q)
    requires dst.Length0 == blSrc.y.Length0 && dst.Length1 == blSrc.y.Length1
    ensures FastPath(dst, blSrc, elSrc, blS, elS, q, p, SnapYuv(blSrc), SnapYuv(elSrc),
      QndImage(p, blS, elS, q, SnapYuv(blSrc), SnapYuv(elSrc), elSrc.u.Length0, elSrc.u.Length1))
    ensures dst.Length0 == Shl(elSrc.u.Length0, elS + q) && dst.Length1 == Shl(elSrc.u.Length1, elS + q)
  {
    var bl, el := SnapYuv(blSrc), SnapYuv(elSrc);
    var T := QndImage(p, blS, elS, q, bl, el, elSrc.u.Length0, elSrc.u.Length1);
    ShlShl(elSrc.u.Length0, elS + q - blS, blS);
    ShlShl(elSrc.u.Length1, elS + q - blS, blS);
    forall Y, X | 0 <= Y < dst.Length0 && 0 <= X < dst.Length1
      ensures Pix(T, Y, X) == QndPixel(p, blS, elS, q, bl, el, elSrc.u.Length0, elSrc.u.Length1, Y, X)
    {
    }
    assert IsQndImage(T, p, blS, elS, q, bl, el, elSrc.u.Length0, elSrc.u.Length1);
  }

  /** The output rows y0 .. y0 + E - 1 under enhancement chroma row heluv. */
  method ElRow(dst: array2<Rgb>, blSrc: Yuv, elSrc: Yuv, blS: nat, elS: nat, q: nat, p: Processor, heluv: nat,
               y0: nat, E: nat, ghost bl: Frame, ghost el: Frame, ghost T: Image)
    requires FastPath(dst, blSrc, elSrc, blS, elS, q, p, bl, el, T)
    requires dst.Length1 == Shl(elSrc.u.Length1, elS + q)
    requires heluv < elSrc.u.Length0 && y0 == Shl(heluv, elS + q) && E == Pow2(elS + q)
    requires y0 + E <= dst.Length0
    modifies dst
    ensures forall Y, X :: y0 <= Y < y0 + E && 0 <= X < dst.Length1 ==> dst[Y, X] == T[Y][X]
    ensures forall Y, X :: (0 <= Y < dst.Length0 && 0 <= X < dst.Length1 && !(y0 <= Y < y0 + E)) ==>
      dst[Y, X] == old(dst[Y, X])
  {
    var x0 := 0;
    for weluv := 0 to elSrc.u.Length1
      invariant x0 == Shl(weluv, elS + q)
      invariant forall Y, X :: y0 <= Y < y0 + E && 0 <= X < x0 ==> dst[Y, X] == T[Y][X]
      invariant forall Y, X :: (0 <= Y < dst.Length0 && 0 <= X < dst.Length1 && !(y0 <= Y < y0 + E && 0 <= X < x0)) ==>
        dst[Y, X] == old(dst[Y, X])
    {
      assert x0 + E == Shl(weluv + 1, elS + q);
      ElCell(dst, blSrc, elSrc, blS, elS, q, p, heluv, weluv, y0, x0, E, bl, el, T);
      x0 := x0 + E;
    }
  }

  /**
   * The output pixels under enhancement chroma sample (heluv, weluv), whose
   * top-left output pixel is (y0, x0): 2^(elS+q-blS) base chroma cells per axis.
   */
  method ElCell(dst: array2<Rgb>, blSrc: Yuv, elSrc: Yuv, blS: nat, elS: nat, q: nat, p: Processor, heluv: nat, weluv: nat,
                y0: nat, x0: nat, E: nat, ghost bl: Frame, ghost el: Frame, ghost T: Image)
    requires FastPath(dst, blSrc, elSrc, blS, elS, q, p, bl, el, T)
    requires heluv < elSrc.u.Length0 && weluv < elSrc.u.Length1
    requires y0 == Shl(heluv, elS + q) && x0 == Shl(weluv, elS + q) && E == Pow2(elS + q)
    requires y0 + E <= dst.Length0 && x0 + E <= dst.Length1
    modifies dst
    ensures forall Y, X :: y0 <= Y < y0 + E && x0 <= X < x0 + E ==> dst[Y, X] == T[Y][X]
    ensures forall Y, X :: (0 <= Y < dst.Length0 && 0 <= X < dst.Length1 &&
      !(y0 <= Y < y0 + E && x0 <= X < x0 + E)) ==>
      dst[Y, X] == old(dst[Y, X])
  {
    var a := elS + q - blS;
    var elu, elv := elSrc.u[heluv, weluv], elSrc.v[heluv, weluv];
    var h0 := Shl(heluv, a);
    var m, n := Pow2(a), Pow2(blS);
    ShlShl(heluv, a, blS);
    ShlShl(weluv, a, blS);
    var yb := y0;
    for hDbluv := 0 to m
      invariant yb == Shl(h0 + hDbluv, blS) && yb <= y0 + E
      invariant forall Y, X :: y0 <= Y < yb && x0 <= X < x0 + E ==> dst[Y, X] == T[Y][X]
      invariant forall Y, X :: (0 <= Y < dst.Length0 && 0 <= X < dst.Length1 &&
        !(y0 <= Y < yb && x0 <= X < x0 + E)) ==>
        dst[Y, X] == old(dst[Y, X])
    {
      ShrOfBlock(heluv, hDbluv, a);
      ElCellRow(dst, blSrc, elSrc, blS, elS, q, p, heluv, weluv, h0 + hDbluv, yb, x0, n, E, elu, elv, bl, el, T);
      yb := yb + n;
    }
  }

  /** One row of base chroma cells inside an enhancement chroma cell: output rows yb .. yb + 2^blS - 1. */
  method ElCellRow(dst: array2<Rgb>, blSrc: Yuv, elSrc: Yuv, blS: nat, elS: nat, q: nat, p: Processor, heluv: nat, weluv: nat,
                   hbluv: nat, yb: nat, x0: nat, n: nat, E: nat, elu: Sample, elv: Sample,
                   ghost bl: Frame, ghost el: Frame, ghost T: Image)
    requires FastPath(dst, blSrc, elSrc, blS, elS, q, p, bl, el, T)
    requires heluv < elSrc.u.Length0 && weluv < elSrc.u.Length1
    requires Shr(hbluv, elS + q - blS) == heluv && yb == Shl(hbluv, blS)
    requires x0 == Shl(weluv, elS + q) && n == Pow2(blS) && E == Pow2(elS + q)
    requires yb + n <= dst.Length0 && x0 + E <= dst.Length1
    requires elu == elSrc.u[heluv, weluv] && elv == elSrc.v[heluv, weluv]
    modifies dst
    ensures forall Y, X :: yb <= Y < yb + n && x0 <= X < x0 + E ==> dst[Y, X] == T[Y][X]
    ensures forall Y, X :: (0 <= Y < dst.Length0 && 0 <= X < dst.Length1 &&
      !(yb <= Y < yb + n && x0 <= X < x0 + E)) ==>
      dst[Y, X] == old(dst[Y, X])
  {
    var a := elS + q - blS;
    var w0 := Shl(weluv, a);
    var m := Pow2(a);
    ShlShl(weluv, a, blS);
    var xb := x0;
    for wDbluv := 0 to m
      invariant xb == Shl(w0 + wDbluv, blS) && xb <= x0 + E
      invariant forall Y, X :: yb <= Y < yb + n && x0 <= X < xb ==> dst[Y, X] == T[Y][X]
      invariant forall Y, X :: (0 <= Y < dst.Length0 && 0 <= X < dst.Length1 &&
        !(yb <= Y < yb + n && x0 <= X < xb)) ==>
        dst[Y, X] == old(dst[Y, X])
    {
      ShrOfBlock(weluv, wDbluv, a);
      BlCell(dst, blSrc, elSrc, blS, elS, q, p, hbluv, w0 + wDbluv, yb, xb, elu, elv, bl, el, T);
      xb := xb + n;
    }
  }

  /**
   * The output pixels of base chroma cell (hbluv, wbluv): one U and one V
   * mapped with the enhancement chroma sample (elu, elv) and the raw base
   * luma at the cell's top-left corner, then (blS+1)^2 luma samples each
   * mapped and converted to RGB.
   */
  method BlCell(dst: array2<Rgb>, blSrc: Yuv, elSrc: Yuv, blS: nat, elS: nat, q: nat, p: Processor, hbluv: nat, wbluv: nat,
                hDbluvy: nat, wbluvy: nat, elu: Sample, elv: Sample, ghost bl: Frame, ghost el: Frame, ghost T: Image)
    requires FastPath(dst, blSrc, elSrc, blS, elS, q, p, bl, el, T)
    requires hbluv < blSrc.u.Length0 && wbluv < blSrc.u.Length1
    requires elu == el.u[Shr(hbluv, elS + q - blS)][Shr(wbluv, elS + q - blS)]
    requires elv == el.v[Shr(hbluv, elS + q - blS)][Shr(wbluv, elS + q - blS)]
    requires hDbluvy == Shl(hbluv, blS) && wbluvy == Shl(wbluv, blS)
    modifies dst
    ensures forall Y, X :: hDbluvy <= Y < hDbluvy + Pow2(blS) && wbluvy <= X < wbluvy + Pow2(blS) ==> dst[Y, X] == T[Y][X]
    ensures forall Y, X :: (0 <= Y < dst.Length0 && 0 <= X < dst.Length1 &&
      !(hDbluvy <= Y < hDbluvy + Pow2(blS) && wbluvy <= X < wbluvy + Pow2(blS))) ==>
      dst[Y, X] == old(dst[Y, X])
  {
    var blu, blv := blSrc.u[hbluv, wbluv], blSrc.v[hbluv, wbluv];
    var mmrbly := blSrc.y[hDbluvy, wbluvy];
    var u := p.processSampleU(blu, elu, mmrbly, blu, blv);
    var v := p.processSampleV(blv, elv, mmrbly, blu, blv);
    assert u == QndU(p, blS, elS, q, bl, el, elSrc.u.Length0, elSrc.u.Length1, hbluv, wbluv);
    assert v == QndV(p, blS, elS, q, bl, el, elSrc.u.Length0, elSrc.u.Length1, hbluv, wbluv);
    BlCellLuma(dst, blSrc, elSrc, blS, elS, q, p, hDbluvy, wbluvy, u, v, bl, el);
    forall Y, X | hDbluvy <= Y < hDbluvy + blS + 1 && wbluvy <= X < wbluvy + blS + 1
      ensures T[Y][X] == p.sample2rgb(QndLuma(p, blS, elS, q, bl, el, elSrc.u.Length0, elSrc.u.Length1, Y, X), u, v)
    {
      ShrIsBlock(Y, hbluv, blS);
      ShrIsBlock(X, wbluv, blS);
      assert Pix(T, Y, X) == QndPixel(p, blS, elS, q, bl, el, elSrc.u.Length0, elSrc.u.Length1, Y, X);
    }
  }

  /** The (blS+1)^2 output pixels whose top-left is (hDbluvy, wbluvy), given their base chroma cell's mapped chroma (u, v). */
  method BlCellLuma(dst: array2<Rgb>, blSrc: Yuv, elSrc: Yuv, blS: nat, elS: nat, q: nat, p: Processor, hDbluvy: nat, wbluvy: nat,
                    u: Sample, v: Sample, ghost bl: Frame, ghost el: Frame)
    requires Layouts(blSrc, elSrc, blS, elS, q) && bl == SnapYuv(blSrc) && el == SnapYuv(elSrc)
    requires dst.Length0 == blSrc.y.Length0 && dst.Length1 == blSrc.y.Length1
    requires hDbluvy + blS + 1 <= dst.Length0 && wbluvy + blS + 1 <= dst.Length1
    modifies dst
    ensures forall Y, X :: hDbluvy <= Y < hDbluvy + blS + 1 && wbluvy <= X < wbluvy + blS + 1 ==>
      dst[Y, X] == p.sample2rgb(QndLuma(p, blS, elS, q, bl, el, elSrc.u.Length0, elSrc.u.Length1, Y, X), u, v)
    ensures forall Y, X :: (0 <= Y < dst.Length0 && 0 <= X < dst.Length1 &&
      !(hDbluvy <= Y < hDbluvy + blS + 1 && wbluvy <= X < wbluvy + blS + 1)) ==>
      dst[Y, X] == old(dst[Y, X])
  {
    for hDbly := 0 to blS + 1
      invariant forall Y, X :: hDbluvy <= Y < hDbluvy + hDbly && wbluvy <= X < wbluvy + blS + 1 ==>
        dst[Y, X] == p.sample2rgb(QndLuma(p, blS, elS, q, bl, el, elSrc.u.Length0, elSrc.u.Length1, Y, X), u, v)
      invariant forall Y, X :: (0 <= Y < dst.Length0 && 0 <= X < dst.Length1 &&
        !(hDbluvy <= Y < hDbluvy + hDbly && wbluvy <= X < wbluvy + blS + 1)) ==>
        dst[Y, X] == old(dst[Y, X])
    {
      BlRowLuma(dst, blSrc, elSrc, blS, elS, q, p, hDbluvy + hDbly, wbluvy, u, v, bl, el);
    }
  }

  /** The blS+1 output pixels of row hDDbly from column wbluvy on, given their base chroma cell's mapped chroma (u, v). */
  method BlRowLuma(dst: array2<Rgb>, blSrc: Yuv, elSrc: Yuv, blS: nat, elS: nat, q: nat, p: Processor, hDDbly: nat, wbluvy: nat,
                   u: Sample, v: Sample, ghost bl: Frame, ghost el: Frame)
    requires Layouts(blSrc, elSrc, blS, elS, q) && bl == SnapYuv(blSrc) && el == SnapYuv(elSrc)
    requires dst.Length0 == blSrc.y.Length0 && dst.Length1 == blSrc.y.Length1
    requires hDDbly < dst.Length0 && wbluvy + blS + 1 <= dst.Length1
    modifies dst
    ensures forall X :: wbluvy <= X < wbluvy + blS + 1 ==>
      dst[hDDbly, X] == p.sample2rgb(QndLuma(p, blS, elS, q, bl, el, elSrc.u.Length0, elSrc.u.Length1, hDDbly, X), u, v)
    ensures forall Y, X :: (0 <= Y < dst.Length0 && 0 <= X < dst.Length1 &&
      !(Y == hDDbly && wbluvy <= X < wbluvy + blS + 1)) ==>
      dst[Y, X] == old(dst[Y, X])
  {
    for wDbly := 0 to blS + 1
      invariant forall X :: wbluvy <= X < wbluvy + wDbly ==>
        dst[hDDbly, X] == p.sample2rgb(QndLuma(p, blS, elS, q, bl, el, elSrc.u.Length0, elSrc.u.Length1, hDDbly, X), u, v)
      invariant forall Y, X :: (0 <= Y < dst.Length0 && 0 <= X < dst.Length1 &&
        !(Y == hDDbly && wbluvy <= X < wbluvy + wDbly)) ==>
        dst[Y, X] == old(dst[Y, X])
    {
      MapPixel(dst, blSrc, elSrc, blS, elS, q, p, hDDbly, wbluvy + wDbly, u, v, bl, el);
    }
  }

  /** Output pixel (hDDbly, wbly): its base luma mapped with the enhancement luma at (hDDbly, wbly) >> q, then converted with (u, v). */
  method MapPixel(dst: array2<Rgb>, blSrc: Yuv, elSrc: Yuv, blS: nat, elS: nat, q: nat, p: Processor, hDDbly: nat, wbly: nat,
                  u: Sample, v: Sample, ghost bl: Frame, ghost el: Frame)
    requires Layouts(blSrc, elSrc, blS, elS, q) && bl == SnapYuv(blSrc) && el == SnapYuv(elSrc)
    requires dst.Length0 == blSrc.y.Length0 && dst.Length1 == blSrc.y.Length1
    requires hDDbly < dst.Length0 && wbly < dst.Length1
    modifies dst
    ensures dst[hDDbly, wbly] == p.sample2rgb(QndLuma(p, blS, elS, q, bl, el, elSrc.u.Length0, elSrc.u.Length1, hDDbly, wbly), u, v)
    ensures forall Y, X :: 0 <= Y < dst.Length0 && 0 <= X < dst.Length1 && !(Y == hDDbly && X == wbly) ==> dst[Y, X] == old(dst[Y, X])
  {
    ElLumaBelow(hDDbly, elSrc.u.Length0, blS, elS, q);
    ElLumaBelow(wbly, elSrc.u.Length1, blS, elS, q);
    var bly := blSrc.y[hDDbly, wbly];
    var ely := elSrc.y[Shr(hDDbly, q), Shr(wbly, q)];
    var y := p.processSampleY(bly, ely);
    dst[hDDbly, wbly] := p.sample2rgb(y, u, v);
  }
}
