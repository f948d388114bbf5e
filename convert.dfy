// The final colour conversion of the staged path (DoViBaker.cpp convert2rgb):
// every pixel of a 4:4:4 frame becomes one RGB pixel.
module Convert {
  import opened Planes

  /** The RGB image of a 4:4:4 frame whose luma is `y` and whose chroma is `u`, `v`: one pixel per sample position. */
  function RgbImage(p: Processor, y: Plane, u: Plane, v: Plane, h: nat, w: nat): (m: Image)
    requires IsRect(y, h, w) && IsRect(u, h, w) && IsRect(v, h, w)
    ensures |m| == h && forall r :: 0 <= r < h ==> |m[r]| == w
    ensures forall r, c :: 0 <= r < h && 0 <= c < w ==> m[r][c] == p.sample2rgb(y[r][c], u[r][c], v[r][c])
  {
    seq<seq<Rgb>>(h, r requires 0 <= r < h => seq<Rgb>(w, c requires 0 <= c < w => p.sample2rgb(y[r][c], u[r][c], v[r][c])))
  }

  /**
   * DoViBaker.cpp convert2rgb: for every chroma position of `srcUV` (which,
   * being 4:4:4, is every pixel position) converts the luma of `srcY` and the
   * chroma of `srcUV` at that position. Positions of `dst` beyond the chroma
   * planes are not written.
   */
  method Convert2Rgb(dst: array2<Rgb>, srcY: Yuv, srcUV: Yuv, p: Processor)
    requires srcUV.v.Length0 == srcUV.u.Length0 && srcUV.v.Length1 == srcUV.u.Length1
    requires srcY.y.Length0 >= srcUV.u.Length0 && srcY.y.Length1 >= srcUV.u.Length1
    requires dst.Length0 >= srcUV.u.Length0 && dst.Length1 >= srcUV.u.Length1
    modifies dst
    ensures forall r, c :: 0 <= r < srcUV.u.Length0 && 0 <= c < srcUV.u.Length1 ==>
      dst[r, c] == p.sample2rgb(srcY.y[r, c], srcUV.u[r, c], srcUV.v[r, c])
    ensures forall r, c :: 0 <= r < dst.Length0 && 0 <= c < dst.Length1 && !(r < srcUV.u.Length0 && c < srcUV.u.Length1) ==>
      dst[r, c] == old(dst[r, c])
    ensures var h, w := srcUV.u.Length0, srcUV.u.Length1;
      dst.Length0 == h && dst.Length1 == w && srcY.y.Length0 == h && srcY.y.Length1 == w ==>
      SnapRgb(dst) == RgbImage(p, Snap(srcY.y), Snap(srcUV.u), Snap(srcUV.v), h, w)
  {
    var srcHeightUV, srcWidthUV := srcUV.u.Length0, srcUV.u.Length1;
    for huv := 0 to srcHeightUV
      invariant forall r, c :: 0 <= r < huv && 0 <= c < srcWidthUV ==>
        dst[r, c] == p.sample2rgb(srcY.y[r, c], srcUV.u[r, c], srcUV.v[r, c])
      invariant forall r, c :: 0 <= r < dst.Length0 && 0 <= c < dst.Length1 && !(r < huv && c < srcWidthUV) ==>
        dst[r, c] == old(dst[r, c])
    {
      for wuv := 0 to srcWidthUV
        invariant forall r, c :: 0 <= r < huv && 0 <= c < srcWidthUV ==>
          dst[r, c] == p.sample2rgb(srcY.y[r, c], srcUV.u[r, c], srcUV.v[r, c])
        invariant forall c :: 0 <= c < wuv ==>
          dst[huv, c] == p.sample2rgb(srcY.y[huv, c], srcUV.u[huv, c], srcUV.v[huv, c])
        invariant forall r, c :: (0 <= r < dst.Length0 && 0 <= c < dst.Length1 &&
          !(r < huv && c < srcWidthUV) && !(r == huv && c < wuv)) ==>
          dst[r, c] == old(dst[r, c])
      {
        dst[huv, wuv] := p.sample2rgb(srcY.y[huv, wuv], srcUV.u[huv, wuv], srcUV.v[huv, wuv]);
      }
    }
    if dst.Length0 == srcHeightUV && dst.Length1 == srcWidthUV && srcY.y.Length0 == srcHeightUV && srcY.y.Length1 == srcWidthUV {
      ImageExt(SnapRgb(dst), RgbImage(p, Snap(srcY.y), Snap(srcUV.u), Snap(srcUV.v), srcHeightUV, srcWidthUV), srcHeightUV, srcWidthUV);
    }
  }
}
