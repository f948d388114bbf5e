// The polyphase 2x upsamplers: a vertical pass and a horizontal pass that
// double one axis of a plane, with tap indices clamped to the plane, and the
// two chained passes used to bring an enhancement-layer frame (or its chroma)
// up to the resolution of the base layer.
module Upsample {
  import opened Planes

  /** A sample generator: the gathered tap values and the index of the centre tap give one output sample. */
  type Upscaler = (seq<Sample>, nat) -> Sample

  /**
   * A polyphase kernel: tap offsets relative to the source position,
   * the index `nD` of the centre tap, and the generators of the even and
   * of the odd output sample.
   */
  datatype Kernel = Kernel(taps: seq<int>, nD: nat, even: Upscaler, odd: Upscaler)

  /** Offsets before the centre do not look forward, offsets after it do not look back. */
  predicate Centred(k: Kernel)
  {
    k.nD < |k.taps| &&
    (forall i :: 0 <= i < k.nD ==> k.taps[i] <= 0) &&
    (forall i :: k.nD < i < |k.taps| ==> k.taps[i] >= 0)
  }

  /** The offsets are exactly -nD, ..., pD, as the horizontal pass reads the interior directly. */
  predicate Contiguous(k: Kernel)
  {
    k.nD < |k.taps| && forall i :: 0 <= i < |k.taps| ==> k.taps[i] == i - k.nD
  }

  /** The number of taps after the centre. */
  function PD(k: Kernel): nat
    requires k.nD < |k.taps|
  {
    |k.taps| - k.nD - 1
  }

  function Clamp(v: int, lo: int, hi: int): int
    requires lo <= hi
  {
    if v < lo then lo else if v > hi then hi else v
  }

  /** The luma kernel of the processor: offsets -2..2 around centre index 2. */
  function LumaKernel(p: Processor): (k: Kernel)
    ensures Centred(k) && Contiguous(k) && k.nD + PD(k) == 4
  {
    Kernel([-2, -1, 0, 1, 2], 2, p.upsampleLumaEven, p.upsampleLumaOdd)
  }

  /** The chroma kernel of the processor: offsets -1..2 around centre index 1. */
  function ChromaKernel(p: Processor): (k: Kernel)
    ensures Centred(k) && Contiguous(k) && k.nD + PD(k) == 3
  {
    Kernel([-1, 0, 1, 2], 1, p.upsampleChromaEven, p.upsampleChromaOdd)
  }

  // ---------------------------------------------------------------------
  // Vertical pass
  // ---------------------------------------------------------------------

  /**
   * The source row read by tap `i` for source row `h`: taps before the centre
   * are only clamped below, taps after it only above, the centre tap is `h`.
   * For a centred kernel that one-sided clamp always lands inside the plane
   * and agrees with clamping on both sides.
   */
  function VertTap(k: Kernel, height: nat, h: int, i: int): (r: int)
    requires Centred(k) && 0 <= h < height && 0 <= i < |k.taps|
    ensures 0 <= r < height
    ensures i == k.nD ==> r == h
    ensures i != k.nD ==> r == Clamp(h + k.taps[i], 0, height - 1)
  {
    if i < k.nD then
      (if h + k.taps[i] < 0 then 0 else h + k.taps[i])
    else if i == k.nD then h
    else
      (if h + k.taps[i] > height - 1 then height - 1 else h + k.taps[i])
  }

  /** The values gathered from column `w` for source row `h`. */
  function VertWindow(s: Plane, width: nat, k: Kernel, h: nat, w: nat): (win: seq<Sample>)
    requires IsRect(s, |s|, width) && Centred(k) && h < |s| && w < width
    ensures |win| == |k.taps|
  {
    seq(|k.taps|, i requires 0 <= i < |k.taps| => s[VertTap(k, |s|, h, i)][w])
  }

  /** The destination sample at row `y`: the even generator for row 2h, the odd one for row 2h+1. */
  function VertAt(s: Plane, width: nat, k: Kernel, y: nat, x: nat): Sample
    requires IsRect(s, |s|, width) && Centred(k) && y < 2 * |s| && x < width
  {
    var win := VertWindow(s, width, k, y / 2, x);
    if y % 2 == 0 then k.even(win, k.nD) else k.odd(win, k.nD)
  }

  /** The vertically doubled plane. */
  function VertUp(s: Plane, width: nat, k: Kernel): (d: Plane)
    requires IsRect(s, |s|, width) && Centred(k)
    ensures IsRect(d, 2 * |s|, width)
    ensures forall y, x :: 0 <= y < 2 * |s| && 0 <= x < width ==> d[y][x] == VertAt(s, width, k, y, x)
  {
    seq(2 * |s|, y requires 0 <= y < 2 * |s| =>
      seq(width, x requires 0 <= x < width => VertAt(s, width, k, y, x)))
  }

  /** DoViBaker.cpp upsampleVert: doubles the rows of `src` into `dst`. */
  method UpsampleVert(dst: array2<Sample>, src: array2<Sample>, k: Kernel)
    requires Centred(k)
    requires dst != src
    requires dst.Length0 == 2 * src.Length0 && dst.Length1 == src.Length1
    modifies dst
    ensures Snap(dst) == VertUp(Snap(src), src.Length1, k)
  {
    var srcHeight, srcWidth := src.Length0, src.Length1;
    var vertLen := |k.taps|;
    ghost var s := Snap(src);
    var h0 := 0;
    while h0 < srcHeight
      invariant 0 <= h0 <= srcHeight
      invariant forall y, x :: 0 <= y < 2 * h0 && 0 <= x < srcWidth ==> dst[y, x] == VertAt(s, srcWidth, k, y, x)
    {
      // the row of each tap, clamped into the plane
      var srcP: seq<int> := [];
      var i := 0;
      while i < k.nD
        invariant 0 <= i <= k.nD && |srcP| == i
        invariant forall j :: 0 <= j < i ==> srcP[j] == VertTap(k, srcHeight, h0, j)
      {
        var factor := if h0 + k.taps[i] < 0 then 0 else h0 + k.taps[i];
        srcP := srcP + [factor];
        i := i + 1;
      }
      srcP := srcP + [h0];
      i := k.nD + 1;
      while i < vertLen
        invariant k.nD + 1 <= i <= vertLen && |srcP| == i
        invariant forall j :: 0 <= j < i ==> srcP[j] == VertTap(k, srcHeight, h0, j)
      {
        var factor := if h0 + k.taps[i] > srcHeight - 1 then srcHeight - 1 else h0 + k.taps[i];
        srcP := srcP + [factor];
        i := i + 1;
      }

      var w := 0;
      while w < srcWidth
        invariant 0 <= w <= srcWidth
        invariant forall y, x :: 0 <= y < 2 * h0 && 0 <= x < srcWidth ==> dst[y, x] == VertAt(s, srcWidth, k, y, x)
        invariant forall y, x :: 2 * h0 <= y < 2 * h0 + 2 && 0 <= x < w ==> dst[y, x] == VertAt(s, srcWidth, k, y, x)
      {
        var value: seq<Sample> := [];
        i := 0;
        while i < vertLen
          invariant 0 <= i <= vertLen && |value| == i
          invariant forall j :: 0 <= j < i ==> value[j] == s[VertTap(k, srcHeight, h0, j)][w]
        {
          value := value + [src[srcP[i], w]];
          i := i + 1;
        }
        assert value == VertWindow(s, srcWidth, k, h0, w);
        dst[2 * h0, w] := k.even(value, k.nD);
        dst[2 * h0 + 1, w] := k.odd(value, k.nD);
        w := w + 1;
      }
      h0 := h0 + 1;
    }
    PlaneExt(Snap(dst), VertUp(s, srcWidth, k), 2 * srcHeight, srcWidth);
  }

  // ---------------------------------------------------------------------
  // Horizontal pass
  // ---------------------------------------------------------------------

  /**
   * The source column read by tap `i` for source column `w`, by region: in
   * the interior the window starts at `w - nD`; at the left border the taps
   * before the centre are clamped to column 0 and the rest are copied from
   * `w`; at the right border the taps after the centre are clamped to the last
   * column and the rest are copied from `w - nD`. Every border window is the
   * interior window with out-of-range columns clamped into the plane.
   */
  function HorzTap(k: Kernel, width: nat, w: int, i: int): (r: int)
    requires Contiguous(k) && width >= k.nD + PD(k) && 0 <= w < width && 0 <= i < |k.taps|
    ensures 0 <= r < width
    ensures r == Clamp(w + i - k.nD, 0, width - 1)
  {
    if k.nD <= w < width - PD(k) then
      w - k.nD + i
    else if w < k.nD then
      (if i < k.nD then (if w + k.taps[i] < 0 then 0 else w + k.taps[i]) else w + (i - k.nD))
    else
      (if i > k.nD then (if w + k.taps[i] > width - 1 then width - 1 else w + k.taps[i]) else w - k.nD + i)
  }

  /** The values gathered from row `h` for source column `w`. */
  function HorzWindow(s: Plane, width: nat, k: Kernel, h: nat, w: nat): (win: seq<Sample>)
    requires IsRect(s, |s|, width) && Contiguous(k) && width >= k.nD + PD(k) && h < |s| && w < width
    ensures |win| == |k.taps|
  {
    seq(|k.taps|, i requires 0 <= i < |k.taps| => s[h][HorzTap(k, width, w, i)])
  }

  /** The destination sample at column `x`: even generator for column 2w, odd for 2w+1. */
  function HorzAt(s: Plane, width: nat, k: Kernel, y: nat, x: nat): Sample
    requires IsRect(s, |s|, width) && Contiguous(k) && width >= k.nD + PD(k) && y < |s| && x < 2 * width
  {
    var win := HorzWindow(s, width, k, y, x / 2);
    if x % 2 == 0 then k.even(win, k.nD) else k.odd(win, k.nD)
  }

  /** The horizontally doubled plane. */
  function HorzUp(s: Plane, width: nat, k: Kernel): (d: Plane)
    requires IsRect(s, |s|, width) && Contiguous(k) && width >= k.nD + PD(k)
    ensures IsRect(d, |s|, 2 * width)
    ensures forall y, x :: 0 <= y < |s| && 0 <= x < 2 * width ==> d[y][x] == HorzAt(s, width, k, y, x)
  {
    seq(|s|, y requires 0 <= y < |s| =>
      seq(2 * width, x requires 0 <= x < 2 * width => HorzAt(s, width, k, y, x)))
  }

  /** DoViBaker.cpp upsampleHorz: doubles the columns of `src` into `dst`, row by row. */
  method UpsampleHorz(dst: array2<Sample>, src: array2<Sample>, k: Kernel)
    requires Contiguous(k) && src.Length1 >= k.nD + PD(k)
    requires dst != src
    requires dst.Length0 == src.Length0 && dst.Length1 == 2 * src.Length1
    modifies dst
    ensures Snap(dst) == HorzUp(Snap(src), src.Length1, k)
  {
    var srcHeight, srcWidth := src.Length0, src.Length1;
    ghost var s := Snap(src);
    var h := 0;
    while h < srcHeight
      invariant 0 <= h <= srcHeight
      invariant forall y, x :: 0 <= y < h && 0 <= x < 2 * srcWidth ==> dst[y, x] == HorzAt(s, srcWidth, k, y, x)
    {
      UpsampleHorzRow(dst, src, k, h);
      h := h + 1;
    }
    PlaneExt(Snap(dst), HorzUp(s, srcWidth, k), srcHeight, 2 * srcWidth);
  }

  /** One row of upsampleHorz: the interior columns, then the left border, then the right border. */
  method UpsampleHorzRow(dst: array2<Sample>, src: array2<Sample>, k: Kernel, h: nat)
    requires Contiguous(k) && src.Length1 >= k.nD + PD(k)
    requires dst != src && h < src.Length0
    requires dst.Length0 == src.Length0 && dst.Length1 == 2 * src.Length1
    modifies dst
    ensures forall x :: 0 <= x < 2 * src.Length1 ==> dst[h, x] == HorzAt(Snap(src), src.Length1, k, h, x)
    ensures forall y, x :: 0 <= y < dst.Length0 && 0 <= x < dst.Length1 && y != h ==> dst[y, x] == old(dst[y, x])
  {
    HorzInterior(dst, src, k, h);
    HorzLeft(dst, src, k, h);
    HorzRight(dst, src, k, h);
  }

  /** The interior columns nD <= w < srcWidth - pD: the window is the source row itself, starting at w - nD. */
  method HorzInterior(dst: array2<Sample>, src: array2<Sample>, k: Kernel, h: nat)
    requires Contiguous(k) && src.Length1 >= k.nD + PD(k)
    requires dst != src && h < src.Length0
    requires dst.Length0 == src.Length0 && dst.Length1 == 2 * src.Length1
    modifies dst
    ensures forall x :: 2 * k.nD <= x < 2 * (src.Length1 - PD(k)) ==> dst[h, x] == HorzAt(Snap(src), src.Length1, k, h, x)
    ensures forall y, x :: 0 <= y < dst.Length0 && 0 <= x < dst.Length1 && !(y == h && 2 * k.nD <= x < 2 * (src.Length1 - PD(k))) ==> dst[y, x] == old(dst[y, x])
  {
    var srcWidth := src.Length1;
    var vertLen, nD := |k.taps|, k.nD;
    var pD := vertLen - nD - 1;
    ghost var s := Snap(src);
    var w := nD;
    while w < srcWidth - pD
      invariant nD <= w <= srcWidth - pD
      invariant forall y, x :: 0 <= y < dst.Length0 && 0 <= x < dst.Length1 && !(y == h && 2 * nD <= x < 2 * w) ==> dst[y, x] == old(dst[y, x])
      invariant forall x :: 2 * nD <= x < 2 * w ==> dst[h, x] == HorzAt(s, srcWidth, k, h, x)
    {
      var win := seq(vertLen, i requires 0 <= i < vertLen reads src => src[h, w - nD + i]);
      assert win == HorzWindow(s, srcWidth, k, h, w);
      dst[h, 2 * w] := k.even(win, nD);
      dst[h, 2 * w + 1] := k.odd(win, nD);
      w := w + 1;
    }
  }

  /** The left border columns w < nD: taps before the centre clamped to column 0. */
  method HorzLeft(dst: array2<Sample>, src: array2<Sample>, k: Kernel, h: nat)
    requires Contiguous(k) && src.Length1 >= k.nD + PD(k)
    requires dst != src && h < src.Length0
    requires dst.Length0 == src.Length0 && dst.Length1 == 2 * src.Length1
    modifies dst
    ensures forall x :: 0 <= x < 2 * k.nD ==> dst[h, x] == HorzAt(Snap(src), src.Length1, k, h, x)
    ensures forall y, x :: 0 <= y < dst.Length0 && 0 <= x < dst.Length1 && !(y == h && x < 2 * k.nD) ==> dst[y, x] == old(dst[y, x])
  {
    var srcWidth := src.Length1;
    var vertLen, nD := |k.taps|, k.nD;
    var pD := vertLen - nD - 1;
    ghost var s := Snap(src);
    var w := 0;
    while w < nD
      invariant 0 <= w <= nD
      invariant forall y, x :: 0 <= y < dst.Length0 && 0 <= x < dst.Length1 && !(y == h && x < 2 * w) ==> dst[y, x] == old(dst[y, x])
      invariant forall x :: 0 <= x < 2 * w ==> dst[h, x] == HorzAt(s, srcWidth, k, h, x)
    {
      var value: seq<Sample> := [];
      var i := 0;
      while i < nD
        invariant 0 <= i <= nD && |value| == i
        invariant forall j :: 0 <= j < i ==> value[j] == s[h][HorzTap(k, srcWidth, w, j)]
      {
        var wd := if w + k.taps[i] < 0 then 0 else w + k.taps[i];
        value := value + [src[h, wd]];
        i := i + 1;
      }
      value := value + seq(pD + 1, j requires 0 <= j < pD + 1 reads src => src[h, w + j]);
      assert value == HorzWindow(s, srcWidth, k, h, w);
      dst[h, 2 * w] := k.even(value, nD);
      dst[h, 2 * w + 1] := k.odd(value, nD);
      w := w + 1;
    }
  }

  /** The right border columns w >= srcWidth - pD: taps after the centre clamped to the last column. */
  method HorzRight(dst: array2<Sample>, src: array2<Sample>, k: Kernel, h: nat)
    requires Contiguous(k) && src.Length1 >= k.nD + PD(k)
    requires dst != src && h < src.Length0
    requires dst.Length0 == src.Length0 && dst.Length1 == 2 * src.Length1
    modifies dst
    ensures forall x :: 2 * (src.Length1 - PD(k)) <= x < 2 * src.Length1 ==> dst[h, x] == HorzAt(Snap(src), src.Length1, k, h, x)
    ensures forall y, x :: 0 <= y < dst.Length0 && 0 <= x < dst.Length1 && !(y == h && 2 * (src.Length1 - PD(k)) <= x) ==> dst[y, x] == old(dst[y, x])
  {
    var srcWidth := src.Length1;
    var vertLen, nD := |k.taps|, k.nD;
    var pD := vertLen - nD - 1;
    ghost var s := Snap(src);
    var w := srcWidth - pD;
    while w < srcWidth
      invariant srcWidth - pD <= w <= srcWidth
      invariant forall y, x :: 0 <= y < dst.Length0 && 0 <= x < dst.Length1 && !(y == h && 2 * (srcWidth - pD) <= x < 2 * w) ==> dst[y, x] == old(dst[y, x])
      invariant forall x :: 2 * (srcWidth - pD) <= x < 2 * w ==> dst[h, x] == HorzAt(s, srcWidth, k, h, x)
    {
      var value: seq<Sample> := seq(nD + 1, j requires 0 <= j < nD + 1 reads src => src[h, w - nD + j]);
      var i := nD + 1;
      while i < vertLen
        invariant nD + 1 <= i <= vertLen && |value| == i
        invariant forall j :: 0 <= j < i ==> value[j] == s[h][HorzTap(k, srcWidth, w, j)]
      {
        var wd := if w + k.taps[i] > srcWidth - 1 then srcWidth - 1 else w + k.taps[i];
        value := value + [src[h, wd]];
        i := i + 1;
      }
      assert value == HorzWindow(s, srcWidth, k, h, w);
      dst[h, 2 * w] := k.even(value, nD);
      dst[h, 2 * w + 1] := k.odd(value, nD);
      w := w + 1;
    }
  }

  // ---------------------------------------------------------------------
  // Constant planes
  // ---------------------------------------------------------------------

  /** Every value of the window is `c`. */
  predicate Uniform(win: seq<Sample>, c: Sample)
  {
    forall i :: 0 <= i < |win| ==> win[i] == c
  }

  /** Both generators of `k` return `c` for a window whose taps are all `c`. */
  ghost predicate KeepsLevel(k: Kernel, c: Sample)
  {
    forall win: seq<Sample> :: |win| == |k.taps| && Uniform(win, c) ==> k.even(win, k.nD) == c && k.odd(win, k.nD) == c
  }

  /** A constant plane stays constant under the vertical pass, border rows included. */
  lemma {:induction false} VertUpConstant(s: Plane, width: nat, k: Kernel, c: Sample)
    requires IsRect(s, |s|, width) && Centred(k)
    requires IsConstant(s, c) && KeepsLevel(k, c)
    ensures IsConstant(VertUp(s, width, k), c)
  {
    var d := VertUp(s, width, k);
    forall y, x | 0 <= y < |d| && 0 <= x < |d[y]|
      ensures d[y][x] == c
    {
      assert Uniform(VertWindow(s, width, k, y / 2, x), c);
    }
  }

  /** A constant plane stays constant under the horizontal pass, border columns included. */
  lemma {:induction false} HorzUpConstant(s: Plane, width: nat, k: Kernel, c: Sample)
    requires IsRect(s, |s|, width) && Contiguous(k) && width >= k.nD + PD(k)
    requires IsConstant(s, c) && KeepsLevel(k, c)
    ensures IsConstant(HorzUp(s, width, k), c)
  {
    var d := HorzUp(s, width, k);
    forall y, x | 0 <= y < |d| && 0 <= x < |d[y]|
      ensures d[y][x] == c
    {
      assert Uniform(HorzWindow(s, width, k, y, x / 2), c);
    }
  }

  /** The two chained passes of upscaleEl and upsampleChroma keep a constant plane constant. */
  lemma {:induction false} UpsampleBothConstant(s: Plane, width: nat, k: Kernel, c: Sample)
    requires IsRect(s, |s|, width) && Centred(k) && Contiguous(k) && width >= k.nD + PD(k)
    requires IsConstant(s, c) && KeepsLevel(k, c)
    ensures IsConstant(HorzUp(VertUp(s, width, k), width, k), c)
  {
    VertUpConstant(s, width, k, c);
    HorzUpConstant(VertUp(s, width, k), width, k, c);
  }

  // ---------------------------------------------------------------------
  // Chained passes
  // ---------------------------------------------------------------------

  /** A plane doubled along both axes: the vertical pass, then the horizontal pass on its result. */
  function Up2(s: Plane, width: nat, k: Kernel): (d: Plane)
    requires IsRect(s, |s|, width) && Centred(k) && Contiguous(k) && width >= k.nD + PD(k)
    ensures IsRect(d, 2 * |s|, 2 * width)
  {
    HorzUp(VertUp(s, width, k), width, k)
  }

  /**
   * DoViBaker.cpp upscaleEl: doubles a quarter-resolution enhancement-layer
   * frame in both directions, luma with the luma kernel and both chroma planes
   * with the chroma kernel, through a frame of half the destination width.
   */
  method UpscaleEl(dst: Yuv, src: Yuv, p: Processor)
    requires Distinct(dst) && PlanesOf(dst) !! PlanesOf(src)
    requires src.y.Length1 >= 4 && src.u.Length1 >= 3
    requires src.v.Length0 == src.u.Length0 && src.v.Length1 == src.u.Length1
    requires HasShape(dst, 2 * src.y.Length0, 2 * src.y.Length1, 2 * src.u.Length0, 2 * src.u.Length1)
    modifies PlanesOf(dst)
    ensures Snap(dst.y) == Up2(Snap(src.y), src.y.Length1, LumaKernel(p))
    ensures Snap(dst.u) == Up2(Snap(src.u), src.u.Length1, ChromaKernel(p))
    ensures Snap(dst.v) == Up2(Snap(src.v), src.v.Length1, ChromaKernel(p))
  {
    var luma, chroma := LumaKernel(p), ChromaKernel(p);
    var mez := NewFrame(2 * src.y.Length0, src.y.Length1, 2 * src.u.Length0, src.u.Length1);

    UpsampleVert(mez.y, src.y, luma);
    UpsampleVert(mez.u, src.u, chroma);
    UpsampleVert(mez.v, src.v, chroma);

    UpsampleHorz(dst.y, mez.y, luma);
    UpsampleHorz(dst.u, mez.u, chroma);
    UpsampleHorz(dst.v, mez.v, chroma);
  }

  /**
   * DoViBaker.cpp upsampleChroma: doubles both chroma planes of a 4:2:0 frame
   * into the chroma planes of a 4:4:4 frame; the luma plane of `dst` is not
   * written.
   */
  method UpsampleChroma(dst: Yuv, src: Yuv, p: Processor)
    requires Distinct(dst) && PlanesOf(dst) !! PlanesOf(src)
    requires src.u.Length1 >= 3
    requires src.v.Length0 == src.u.Length0 && src.v.Length1 == src.u.Length1
    requires dst.u.Length0 == 2 * src.u.Length0 && dst.u.Length1 == 2 * src.u.Length1
    requires dst.v.Length0 == 2 * src.u.Length0 && dst.v.Length1 == 2 * src.u.Length1
    modifies dst.u, dst.v
    ensures Snap(dst.u) == Up2(Snap(src.u), src.u.Length1, ChromaKernel(p))
    ensures Snap(dst.v) == Up2(Snap(src.v), src.v.Length1, ChromaKernel(p))
  {
    var chroma := ChromaKernel(p);
    var mezU := new Sample[2 * src.u.Length0, src.u.Length1];
    var mezV := new Sample[2 * src.v.Length0, src.v.Length1];

    UpsampleVert(mezU, src.u, chroma);
    UpsampleVert(mezV, src.v, chroma);

    UpsampleHorz(dst.u, mezU, chroma);
    UpsampleHorz(dst.v, mezV, chroma);
  }
}
