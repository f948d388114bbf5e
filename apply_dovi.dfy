// The staged combiner: base and enhancement layer at the same resolution and
// the same chroma subsampling S (0 = 4:4:4, 1 = 4:2:0) are mapped into a
// normalised YUV frame. Every luma sample is mapped from the co-located
// base and enhancement samples; every chroma sample is mapped with a luma
// proxy mmrBlY, which at S = 1 is a rounded fixed-point low-pass of the
// 2x2 (plus neighbours) base-layer luma under that chroma position.
module ApplyDovi {
  import opened Planes

  function Min(a: int, b: int): int { if a <= b then a else b }
  function Max(a: int, b: int): int { if a <= b then b else a }

  // The fixed-point filters. The source shifts non-negative sums right,
  // which is division by a power of two.

  /** `(a + 2b + c + 2) >> 2`: the interior 1-2-1 tap, a rounded weighted average of its inputs. */
  function Filter121(a: Sample, b: Sample, c: Sample): (r: int)
    ensures Min(a, Min(b, c)) <= r <= Max(a, Max(b, c))
  {
    (a + 2 * b + c + 2) / 4
  }

  /** `(3a + b + 2) >> 2`: the left-border tap, the missing left neighbour mirrored onto column 0. */
  function Filter31(a: Sample, b: Sample): (r: int)
    ensures Min(a, b) <= r <= Max(a, b)
  {
    (3 * a + b + 2) / 4
  }

  /** `(a + 3b + 2) >> 2`: the right-border tap. */
  function Filter13(a: Sample, b: Sample): (r: int)
    ensures Min(a, b) <= r <= Max(a, b)
  {
    (a + 3 * b + 2) / 4
  }

  /** `(r1 + r2 + 1) >> 1`: the rounded average of the two filtered luma rows. */
  function RoundAvg(r1: int, r2: int): (r: int)
    ensures Min(r1, r2) <= r <= Max(r1, r2)
  {
    (r1 + r2 + 1) / 2
  }

  /** The shape of the base-layer luma plane that mmrBlY reads: (S+1) rows per chroma row, (S+1) columns per chroma column. */
  predicate LumaFor(blY: Plane, S: nat, hc: nat, wc: nat)
  {
    S <= 1 && IsRect(blY, Up(S, hc), Up(S, wc))
  }

  /**
   * The luma proxy for chroma position (r, c). At S = 0 it is the base-layer
   * luma at (r, c). At S = 1 each of luma rows 2r and 2r+1 is filtered across
   * columns 2c-1, 2c, 2c+1 with weights 1-2-1 (3-1 on columns 0, 1 at the left
   * border, 1-3 on columns 2c-1, 2c at the right border), and the two rows
   * are averaged with rounding. The result always fits in a 16-bit sample.
   */
  function MmrBlY(blY: Plane, S: nat, hc: nat, wc: nat, r: nat, c: nat): Sample
    requires LumaFor(blY, S, hc, wc) && r < hc && c < wc
    requires S == 1 ==> wc >= 2
  {
    if S == 0 then blY[r][c]
    else
      var top, bot := blY[2 * r], blY[2 * r + 1];
      if c == 0 then
        RoundAvg(Filter31(top[0], top[1]), Filter31(bot[0], bot[1]))
      else if c == wc - 1 then
        RoundAvg(Filter13(top[2 * c - 1], top[2 * c]), Filter13(bot[2 * c - 1], bot[2 * c]))
      else
        RoundAvg(Filter121(top[2 * c - 1], top[2 * c], top[2 * c + 1]),
                 Filter121(bot[2 * c - 1], bot[2 * c], bot[2 * c + 1]))
  }

  /** The base-layer luma samples that MmrBlY reads for chroma position (r, c). */
  function MmrTaps(blY: Plane, S: nat, hc: nat, wc: nat, r: nat, c: nat): seq<Sample>
    requires LumaFor(blY, S, hc, wc) && r < hc && c < wc
    requires S == 1 ==> wc >= 2
  {
    if S == 0 then [blY[r][c]]
    else
      var top, bot := blY[2 * r], blY[2 * r + 1];
      if c == 0 then [top[0], top[1], bot[0], bot[1]]
      else if c == wc - 1 then [top[2 * c - 1], top[2 * c], bot[2 * c - 1], bot[2 * c]]
      else [top[2 * c - 1], top[2 * c], top[2 * c + 1], bot[2 * c - 1], bot[2 * c], bot[2 * c + 1]]
  }

  predicate Bounded(s: seq<Sample>, lo: int, hi: int)
  {
    forall i :: 0 <= i < |s| ==> lo <= s[i] <= hi
  }

  /**
   * mmrBlY never leaves the range of the luma samples it reads: it is a
   * rounded weighted average of them. In particular a flat luma region
   * yields its own level.
   */
  lemma {:induction false} MmrWithinTaps(blY: Plane, S: nat, hc: nat, wc: nat, r: nat, c: nat, lo: int, hi: int)
    requires LumaFor(blY, S, hc, wc) && r < hc && c < wc
    requires S == 1 ==> wc >= 2
    requires Bounded(MmrTaps(blY, S, hc, wc, r, c), lo, hi)
    ensures lo <= MmrBlY(blY, S, hc, wc, r, c) <= hi
  {
    var taps := MmrTaps(blY, S, hc, wc, r, c);
    if S == 1 {
      assert lo <= taps[0] <= hi && lo <= taps[1] <= hi && lo <= taps[2] <= hi && lo <= taps[3] <= hi;
      if c != 0 && c != wc - 1 {
        assert lo <= taps[4] <= hi && lo <= taps[5] <= hi;
      }
    } else {
      assert lo <= taps[0] <= hi;
    }
  }

  // ---------------------------------------------------------------------
  // The output planes, as values
  // ---------------------------------------------------------------------

  /** Every luma sample mapped from the base and enhancement samples at the same coordinates. */
  function DoviY(p: Processor, blY: Plane, elY: Plane, h: nat, w: nat): (d: Plane)
    requires IsRect(blY, h, w) && IsRect(elY, h, w)
    ensures IsRect(d, h, w)
    ensures forall y, x :: 0 <= y < h && 0 <= x < w ==> d[y][x] == p.processSampleY(blY[y][x], elY[y][x])
  {
    seq<seq<Sample>>(h, y requires 0 <= y < h => seq<Sample>(w, x requires 0 <= x < w => p.processSampleY(blY[y][x], elY[y][x])))
  }

  /** The chroma samples of the frame layers the staged combiner reads. */
  predicate ChromaFor(blU: Plane, blV: Plane, elU: Plane, elV: Plane, hc: nat, wc: nat)
  {
    IsRect(blU, hc, wc) && IsRect(blV, hc, wc) && IsRect(elU, hc, wc) && IsRect(elV, hc, wc)
  }

  /** Every U sample mapped with the luma proxy of its position and the base-layer U and V as context. */
  function DoviU(p: Processor, S: nat, blY: Plane, blU: Plane, blV: Plane, elU: Plane, elV: Plane, hc: nat, wc: nat): (d: Plane)
    requires LumaFor(blY, S, hc, wc) && ChromaFor(blU, blV, elU, elV, hc, wc)
    requires S == 1 && hc > 0 ==> wc >= 2
    ensures IsRect(d, hc, wc)
    ensures forall r, c :: 0 <= r < hc && 0 <= c < wc ==>
      d[r][c] == p.processSampleU(blU[r][c], elU[r][c], MmrBlY(blY, S, hc, wc, r, c), blU[r][c], blV[r][c])
  {
    seq<seq<Sample>>(hc, r requires 0 <= r < hc => seq<Sample>(wc, c requires 0 <= c < wc =>
      p.processSampleU(blU[r][c], elU[r][c], MmrBlY(blY, S, hc, wc, r, c), blU[r][c], blV[r][c])))
  }

  /** Every V sample mapped with the luma proxy of its position and the base-layer U and V as context. */
  function DoviV(p: Processor, S: nat, blY: Plane, blU: Plane, blV: Plane, elU: Plane, elV: Plane, hc: nat, wc: nat): (d: Plane)
    requires LumaFor(blY, S, hc, wc) && ChromaFor(blU, blV, elU, elV, hc, wc)
    requires S == 1 && hc > 0 ==> wc >= 2
    ensures IsRect(d, hc, wc)
    ensures forall r, c :: 0 <= r < hc && 0 <= c < wc ==>
      d[r][c] == p.processSampleV(blV[r][c], elV[r][c], MmrBlY(blY, S, hc, wc, r, c), blU[r][c], blV[r][c])
  {
    seq<seq<Sample>>(hc, r requires 0 <= r < hc => seq<Sample>(wc, c requires 0 <= c < wc =>
      p.processSampleV(blV[r][c], elV[r][c], MmrBlY(blY, S, hc, wc, r, c), blU[r][c], blV[r][c])))
  }

  // ---------------------------------------------------------------------
  // The pass
  // ---------------------------------------------------------------------

  /** The frames applyDovi reads have the shapes it assumes, and it writes none of them. */
  predicate Inputs(dst: Yuv, blSrcY: Yuv, blSrcUV: Yuv, elSrcY: Yuv, elSrcUV: Yuv, S: nat)
    reads {}
  {
    var hc, wc := blSrcUV.u.Length0, blSrcUV.u.Length1;
    S <= 1 &&
    (S == 1 && hc > 0 ==> wc >= 2) &&
    Distinct(dst) &&
    Apart(dst, blSrcY.y) && Apart(dst, blSrcUV.u) && Apart(dst, blSrcUV.v) &&
    Apart(dst, elSrcY.y) && Apart(dst, elSrcUV.u) && Apart(dst, elSrcUV.v) &&
    HasShape(dst, Up(S, hc), Up(S, wc), hc, wc) &&
    blSrcY.y.Length0 == Up(S, hc) && blSrcY.y.Length1 == Up(S, wc) &&
    elSrcY.y.Length0 == Up(S, hc) && elSrcY.y.Length1 == Up(S, wc) &&
    blSrcUV.v.Length0 == hc && blSrcUV.v.Length1 == wc &&
    elSrcUV.u.Length0 == hc && elSrcUV.u.Length1 == wc &&
    elSrcUV.v.Length0 == hc && elSrcUV.v.Length1 == wc
  }

  /**
   * DoViBaker.cpp applyDovi: maps the base and enhancement layers into `dst`,
   * one chroma row (and its S+1 luma rows) at a time.
   */
  method ApplyDovi(dst: Yuv, blSrcY: Yuv, blSrcUV: Yuv, elSrcY: Yuv, elSrcUV: Yuv, S: nat, p: Processor)
    requires Inputs(dst, blSrcY, blSrcUV, elSrcY, elSrcUV, S)
    modifies dst.y, dst.u, dst.v
    ensures var hc, wc := blSrcUV.u.Length0, blSrcUV.u.Length1;
      Snap(dst.y) == DoviY(p, Snap(blSrcY.y), Snap(elSrcY.y), Up(S, hc), Up(S, wc)) &&
      Snap(dst.u) == DoviU(p, S, Snap(blSrcY.y), Snap(blSrcUV.u), Snap(blSrcUV.v), Snap(elSrcUV.u), Snap(elSrcUV.v), hc, wc) &&
      Snap(dst.v) == DoviV(p, S, Snap(blSrcY.y), Snap(blSrcUV.u), Snap(blSrcUV.v), Snap(elSrcUV.u), Snap(elSrcUV.v), hc, wc)
  {
    var blSrcHeightUV, blSrcWidthUV := blSrcUV.u.Length0, blSrcUV.u.Length1;
    ghost var h, w := Up(S, blSrcHeightUV), Up(S, blSrcWidthUV);
    ghost var bl := Snap(blSrcY.y);
    var huv := 0;
    while huv < blSrcHeightUV
      invariant 0 <= huv <= blSrcHeightUV
      invariant forall y, x :: 0 <= y < Up(S, huv) && 0 <= x < w ==>
        dst.y[y, x] == p.processSampleY(blSrcY.y[y, x], elSrcY.y[y, x])
      invariant forall r, c :: 0 <= r < huv && 0 <= c < blSrcWidthUV ==>
        dst.u[r, c] == p.processSampleU(blSrcUV.u[r, c], elSrcUV.u[r, c], MmrBlY(bl, S, blSrcHeightUV, blSrcWidthUV, r, c), blSrcUV.u[r, c], blSrcUV.v[r, c])
      invariant forall r, c :: 0 <= r < huv && 0 <= c < blSrcWidthUV ==>
        dst.v[r, c] == p.processSampleV(blSrcUV.v[r, c], elSrcUV.v[r, c], MmrBlY(bl, S, blSrcHeightUV, blSrcWidthUV, r, c), blSrcUV.u[r, c], blSrcUV.v[r, c])
    {
      ApplyDoviRow(dst, blSrcY, blSrcUV, elSrcY, elSrcUV, S, p, huv, bl);
      assert Up(S, huv + 1) == Up(S, huv) + S + 1;
      huv := huv + 1;
    }
    PlaneExt(Snap(dst.y), DoviY(p, Snap(blSrcY.y), Snap(elSrcY.y), h, w), h, w);
    PlaneExt(Snap(dst.u), DoviU(p, S, bl, Snap(blSrcUV.u), Snap(blSrcUV.v), Snap(elSrcUV.u), Snap(elSrcUV.v), blSrcHeightUV, blSrcWidthUV),
      blSrcHeightUV, blSrcWidthUV);
    PlaneExt(Snap(dst.v), DoviV(p, S, bl, Snap(blSrcUV.u), Snap(blSrcUV.v), Snap(elSrcUV.u), Snap(elSrcUV.v), blSrcHeightUV, blSrcWidthUV),
      blSrcHeightUV, blSrcWidthUV);
  }

  /** One chroma row of applyDovi: the left border position (S = 1), the interior, the right border position (S = 1). */
  method ApplyDoviRow(dst: Yuv, blSrcY: Yuv, blSrcUV: Yuv, elSrcY: Yuv, elSrcUV: Yuv, S: nat, p: Processor, huv: nat, ghost bl: Plane)
    requires Inputs(dst, blSrcY, blSrcUV, elSrcY, elSrcUV, S) && huv < blSrcUV.u.Length0 && bl == Snap(blSrcY.y)
    modifies dst.y, dst.u, dst.v
    ensures forall y, x :: Up(S, huv) <= y < Up(S, huv) + S + 1 && 0 <= x < dst.y.Length1 ==>
      dst.y[y, x] == p.processSampleY(blSrcY.y[y, x], elSrcY.y[y, x])
    ensures forall y, x :: 0 <= y < dst.y.Length0 && 0 <= x < dst.y.Length1 && !(Up(S, huv) <= y < Up(S, huv) + S + 1) ==>
      dst.y[y, x] == old(dst.y[y, x])
    ensures forall c :: 0 <= c < blSrcUV.u.Length1 ==>
      dst.u[huv, c] == p.processSampleU(blSrcUV.u[huv, c], elSrcUV.u[huv, c], MmrBlY(bl, S, blSrcUV.u.Length0, blSrcUV.u.Length1, huv, c), blSrcUV.u[huv, c], blSrcUV.v[huv, c])
    ensures forall c :: 0 <= c < blSrcUV.u.Length1 ==>
      dst.v[huv, c] == p.processSampleV(blSrcUV.v[huv, c], elSrcUV.v[huv, c], MmrBlY(bl, S, blSrcUV.u.Length0, blSrcUV.u.Length1, huv, c), blSrcUV.u[huv, c], blSrcUV.v[huv, c])
    ensures forall r, c :: 0 <= r < dst.u.Length0 && 0 <= c < dst.u.Length1 && r != huv ==>
      dst.u[r, c] == old(dst.u[r, c]) && dst.v[r, c] == old(dst.v[r, c])
  {
    var blSrcWidthUV := blSrcUV.u.Length1;
    var blY := blSrcY.y;
    if S == 1 {
      var mmrBlY := MmrLeftBorder(blY, huv);
      MapPosition(dst, blSrcY, blSrcUV, elSrcY, elSrcUV, S, p, huv, 0, mmrBlY);
    }
    MapRowInterior(dst, blSrcY, blSrcUV, elSrcY, elSrcUV, S, p, huv, bl);
    if S == 1 {
      var wuv := blSrcWidthUV - S;
      var mmrBlY := MmrRightBorder(blY, huv, wuv);
      MapPosition(dst, blSrcY, blSrcUV, elSrcY, elSrcUV, S, p, huv, wuv, mmrBlY);
    }
  }

  /** The chroma positions S .. wc-S-1 of one row, whose luma proxy needs no border handling. */
  method MapRowInterior(dst: Yuv, blSrcY: Yuv, blSrcUV: Yuv, elSrcY: Yuv, elSrcUV: Yuv, S: nat, p: Processor, huv: nat, ghost bl: Plane)
    requires Inputs(dst, blSrcY, blSrcUV, elSrcY, elSrcUV, S) && huv < blSrcUV.u.Length0 && bl == Snap(blSrcY.y)
    modifies dst.y, dst.u, dst.v
    ensures forall y, x :: Up(S, huv) <= y < Up(S, huv) + S + 1 && Up(S, S) <= x < Up(S, blSrcUV.u.Length1 - S) ==>
      dst.y[y, x] == p.processSampleY(blSrcY.y[y, x], elSrcY.y[y, x])
    ensures forall y, x :: (0 <= y < dst.y.Length0 && 0 <= x < dst.y.Length1 &&
      !(Up(S, huv) <= y < Up(S, huv) + S + 1 && Up(S, S) <= x < Up(S, blSrcUV.u.Length1 - S))) ==>
      dst.y[y, x] == old(dst.y[y, x])
    ensures forall c :: S <= c < blSrcUV.u.Length1 - S ==>
      dst.u[huv, c] == p.processSampleU(blSrcUV.u[huv, c], elSrcUV.u[huv, c], MmrBlY(bl, S, blSrcUV.u.Length0, blSrcUV.u.Length1, huv, c), blSrcUV.u[huv, c], blSrcUV.v[huv, c])
    ensures forall c :: S <= c < blSrcUV.u.Length1 - S ==>
      dst.v[huv, c] == p.processSampleV(blSrcUV.v[huv, c], elSrcUV.v[huv, c], MmrBlY(bl, S, blSrcUV.u.Length0, blSrcUV.u.Length1, huv, c), blSrcUV.u[huv, c], blSrcUV.v[huv, c])
    ensures forall r, c :: (0 <= r < dst.u.Length0 && 0 <= c < dst.u.Length1 && !(r == huv && S <= c < blSrcUV.u.Length1 - S)) ==>
      dst.u[r, c] == old(dst.u[r, c]) && dst.v[r, c] == old(dst.v[r, c])
  {
    var blSrcHeightUV, blSrcWidthUV := blSrcUV.u.Length0, blSrcUV.u.Length1;
    var blY := blSrcY.y;
    var wuv := S;
    while wuv < blSrcWidthUV - S
      invariant S <= wuv <= blSrcWidthUV - S
      invariant forall y, x :: Up(S, huv) <= y < Up(S, huv) + S + 1 && Up(S, S) <= x < Up(S, wuv) ==>
        dst.y[y, x] == p.processSampleY(blY[y, x], elSrcY.y[y, x])
      invariant forall y, x :: (0 <= y < dst.y.Length0 && 0 <= x < dst.y.Length1 &&
        !(Up(S, huv) <= y < Up(S, huv) + S + 1 && Up(S, S) <= x < Up(S, wuv))) ==>
        dst.y[y, x] == old(dst.y[y, x])
      invariant forall c :: S <= c < wuv ==>
        dst.u[huv, c] == p.processSampleU(blSrcUV.u[huv, c], elSrcUV.u[huv, c], MmrBlY(bl, S, blSrcHeightUV, blSrcWidthUV, huv, c), blSrcUV.u[huv, c], blSrcUV.v[huv, c])
      invariant forall c :: S <= c < wuv ==>
        dst.v[huv, c] == p.processSampleV(blSrcUV.v[huv, c], elSrcUV.v[huv, c], MmrBlY(bl, S, blSrcHeightUV, blSrcWidthUV, huv, c), blSrcUV.u[huv, c], blSrcUV.v[huv, c])
      invariant forall r, c :: (0 <= r < dst.u.Length0 && 0 <= c < dst.u.Length1 && !(r == huv && S <= c < wuv)) ==>
        dst.u[r, c] == old(dst.u[r, c]) && dst.v[r, c] == old(dst.v[r, c])
    {
      var mmrBlY := InteriorMmr(blY, S, huv, wuv, bl, blSrcHeightUV, blSrcWidthUV);
      MapPosition(dst, blSrcY, blSrcUV, elSrcY, elSrcUV, S, p, huv, wuv, mmrBlY);
      assert Up(S, wuv + 1) == Up(S, wuv) + S + 1;
      wuv := wuv + 1;
    }
  }

  /** The luma block and the chroma samples of one chroma position, given its luma proxy. */
  method MapPosition(dst: Yuv, blSrcY: Yuv, blSrcUV: Yuv, elSrcY: Yuv, elSrcUV: Yuv, S: nat, p: Processor, huv: nat, wuv: nat, mmrBlY: Sample)
    requires Inputs(dst, blSrcY, blSrcUV, elSrcY, elSrcUV, S) && huv < blSrcUV.u.Length0 && wuv < blSrcUV.u.Length1
    modifies dst.y, dst.u, dst.v
    ensures forall y, x :: Up(S, huv) <= y <= Up(S, huv) + S && Up(S, wuv) <= x <= Up(S, wuv) + S ==>
      dst.y[y, x] == p.processSampleY(blSrcY.y[y, x], elSrcY.y[y, x])
    ensures forall y, x :: (0 <= y < dst.y.Length0 && 0 <= x < dst.y.Length1 &&
      !(Up(S, huv) <= y <= Up(S, huv) + S && Up(S, wuv) <= x <= Up(S, wuv) + S)) ==>
      dst.y[y, x] == old(dst.y[y, x])
    ensures dst.u[huv, wuv] == p.processSampleU(blSrcUV.u[huv, wuv], elSrcUV.u[huv, wuv], mmrBlY, blSrcUV.u[huv, wuv], blSrcUV.v[huv, wuv])
    ensures dst.v[huv, wuv] == p.processSampleV(blSrcUV.v[huv, wuv], elSrcUV.v[huv, wuv], mmrBlY, blSrcUV.u[huv, wuv], blSrcUV.v[huv, wuv])
    ensures forall r, c :: 0 <= r < dst.u.Length0 && 0 <= c < dst.u.Length1 && !(r == huv && c == wuv) ==>
      dst.u[r, c] == old(dst.u[r, c]) && dst.v[r, c] == old(dst.v[r, c])
  {
    MapLumaBlock(dst.y, blSrcY.y, elSrcY.y, p, S, huv, wuv);
    MapChroma(dst, blSrcUV, elSrcUV, p, huv, wuv, mmrBlY);
  }

  /** The luma proxy of an interior chroma position: the filtered luma when S = 1, the co-sited luma sample when S = 0. */
  method InteriorMmr(blY: array2<Sample>, S: nat, huv: nat, wuv: nat, ghost bl: Plane, ghost hc: nat, ghost wc: nat) returns (mmrBlY: Sample)
    requires S <= 1 && blY.Length0 == Up(S, hc) && blY.Length1 == Up(S, wc) && huv < hc && S <= wuv < wc - S
    requires bl == Snap(blY)
    ensures mmrBlY == MmrBlY(bl, S, hc, wc, huv, wuv)
  {
    if S == 1 {
      mmrBlY := MmrInterior(blY, huv, wuv);
    } else {
      mmrBlY := blY[huv, wuv];
    }
  }

  /** The left-border luma proxy (chroma column 0) as the source computes it. */
  method MmrLeftBorder(blY: array2<Sample>, huv: nat) returns (mmrBlY: Sample)
    requires blY.Length0 % 2 == 0 && blY.Length1 % 2 == 0 && blY.Length1 >= 4 && 2 * huv + 1 < blY.Length0
    ensures mmrBlY == MmrBlY(Snap(blY), 1, blY.Length0 / 2, blY.Length1 / 2, huv, 0)
  {
    var wuv := 0;
    var mmrBlY1: int := 3 * (blY[2 * huv, 2 * wuv] as int) + (blY[2 * huv, 2 * wuv + 1] as int) + 2;
    var mmrBlY2: int := 3 * (blY[2 * huv + 1, 2 * wuv] as int) + (blY[2 * huv + 1, 2 * wuv + 1] as int) + 2;
    mmrBlY := ((mmrBlY1 / 4) + (mmrBlY2 / 4) + 1) / 2;
  }

  /** The interior luma proxy (1-2-1 across columns 2w-1, 2w, 2w+1) as the source computes it. */
  method MmrInterior(blY: array2<Sample>, huv: nat, wuv: nat) returns (mmrBlY: Sample)
    requires blY.Length0 % 2 == 0 && blY.Length1 % 2 == 0 && 2 * huv + 1 < blY.Length0
    requires 1 <= wuv < blY.Length1 / 2 - 1
    ensures mmrBlY == MmrBlY(Snap(blY), 1, blY.Length0 / 2, blY.Length1 / 2, huv, wuv)
  {
    var mmrBlY1: int := (blY[2 * huv, 2 * wuv - 1] as int) + 2 * (blY[2 * huv, 2 * wuv] as int) + (blY[2 * huv, 2 * wuv + 1] as int) + 2;
    var mmrBlY2: int := (blY[2 * huv + 1, 2 * wuv - 1] as int) + 2 * (blY[2 * huv + 1, 2 * wuv] as int) + (blY[2 * huv + 1, 2 * wuv + 1] as int) + 2;
    mmrBlY := ((mmrBlY1 / 4) + (mmrBlY2 / 4) + 1) / 2;
  }

  /** The right-border luma proxy (1-3 on columns 2w-1, 2w) as the source computes it. */
  method MmrRightBorder(blY: array2<Sample>, huv: nat, wuv: nat) returns (mmrBlY: Sample)
    requires blY.Length0 % 2 == 0 && blY.Length1 % 2 == 0 && 2 * huv + 1 < blY.Length0
    requires blY.Length1 >= 4 && wuv == blY.Length1 / 2 - 1
    ensures mmrBlY == MmrBlY(Snap(blY), 1, blY.Length0 / 2, blY.Length1 / 2, huv, wuv)
  {
    var mmrBlY1: int := (blY[2 * huv, 2 * wuv - 1] as int) + 3 * (blY[2 * huv, 2 * wuv] as int) + 2;
    var mmrBlY2: int := (blY[2 * huv + 1, 2 * wuv - 1] as int) + 3 * (blY[2 * huv + 1, 2 * wuv] as int) + 2;
    mmrBlY := ((mmrBlY1 / 4) + (mmrBlY2 / 4) + 1) / 2;
  }

  /** The (S+1) x (S+1) luma samples under chroma position (huv, wuv), each mapped from its base and enhancement samples. */
  method MapLumaBlock(dstY: array2<Sample>, blY: array2<Sample>, elY: array2<Sample>, p: Processor, S: nat, huv: nat, wuv: nat)
    requires S <= 1 && dstY != blY && dstY != elY
    requires blY.Length0 == dstY.Length0 && blY.Length1 == dstY.Length1
    requires elY.Length0 == dstY.Length0 && elY.Length1 == dstY.Length1
    requires Up(S, huv) + S < dstY.Length0 && Up(S, wuv) + S < dstY.Length1
    modifies dstY
    ensures forall y, x :: Up(S, huv) <= y <= Up(S, huv) + S && Up(S, wuv) <= x <= Up(S, wuv) + S ==>
      dstY[y, x] == p.processSampleY(blY[y, x], elY[y, x])
    ensures forall y, x :: (0 <= y < dstY.Length0 && 0 <= x < dstY.Length1 &&
      !(Up(S, huv) <= y <= Up(S, huv) + S && Up(S, wuv) <= x <= Up(S, wuv) + S)) ==>
      dstY[y, x] == old(dstY[y, x])
  {
    var y0 := (S + 1) * huv;
    assert y0 == Up(S, huv);
    var j := 0;
    while j < S + 1
      invariant 0 <= j <= S + 1
      invariant forall y, x :: y0 <= y < y0 + j && Up(S, wuv) <= x <= Up(S, wuv) + S ==>
        dstY[y, x] == p.processSampleY(blY[y, x], elY[y, x])
      invariant forall y, x :: (0 <= y < dstY.Length0 && 0 <= x < dstY.Length1 &&
        !(y0 <= y < y0 + j && Up(S, wuv) <= x <= Up(S, wuv) + S)) ==>
        dstY[y, x] == old(dstY[y, x])
    {
      var row := y0 + j;
      var i := 0;
      while i < S + 1
        invariant 0 <= i <= S + 1
        invariant forall y, x :: y0 <= y < y0 + j && Up(S, wuv) <= x <= Up(S, wuv) + S ==>
          dstY[y, x] == p.processSampleY(blY[y, x], elY[y, x])
        invariant forall x :: Up(S, wuv) <= x < Up(S, wuv) + i ==>
          dstY[row, x] == p.processSampleY(blY[row, x], elY[row, x])
        invariant forall y, x :: (0 <= y < dstY.Length0 && 0 <= x < dstY.Length1 &&
          !(y0 <= y < y0 + j && Up(S, wuv) <= x <= Up(S, wuv) + S) &&
          !(y == row && Up(S, wuv) <= x < Up(S, wuv) + i)) ==>
          dstY[y, x] == old(dstY[y, x])
      {
        var w := (S + 1) * wuv + i;
        assert w == Up(S, wuv) + i;
        dstY[row, w] := p.processSampleY(blY[row, w], elY[row, w]);
        i := i + 1;
      }
      j := j + 1;
    }
  }

  /** The U and V samples of chroma position (huv, wuv), mapped with the luma proxy `mmrBlY`. */
  method MapChroma(dst: Yuv, blSrcUV: Yuv, elSrcUV: Yuv, p: Processor, huv: nat, wuv: nat, mmrBlY: Sample)
    requires dst.u != dst.v
    requires Apart(dst, blSrcUV.u) && Apart(dst, blSrcUV.v) && Apart(dst, elSrcUV.u) && Apart(dst, elSrcUV.v)
    requires huv < dst.u.Length0 && wuv < dst.u.Length1
    requires forall a <- [dst.v, blSrcUV.u, blSrcUV.v, elSrcUV.u, elSrcUV.v] :: a.Length0 == dst.u.Length0 && a.Length1 == dst.u.Length1
    modifies dst.u, dst.v
    ensures dst.u[huv, wuv] == p.processSampleU(blSrcUV.u[huv, wuv], elSrcUV.u[huv, wuv], mmrBlY, blSrcUV.u[huv, wuv], blSrcUV.v[huv, wuv])
    ensures dst.v[huv, wuv] == p.processSampleV(blSrcUV.v[huv, wuv], elSrcUV.v[huv, wuv], mmrBlY, blSrcUV.u[huv, wuv], blSrcUV.v[huv, wuv])
    ensures forall r, c :: 0 <= r < dst.u.Length0 && 0 <= c < dst.u.Length1 && !(r == huv && c == wuv) ==>
      dst.u[r, c] == old(dst.u[r, c]) && dst.v[r, c] == old(dst.v[r, c])
  {
    var blU, blV := blSrcUV.u[huv, wuv], blSrcUV.v[huv, wuv];
    dst.u[huv, wuv] := p.processSampleU(blU, elSrcUV.u[huv, wuv], mmrBlY, blU, blV);
    dst.v[huv, wuv] := p.processSampleV(blV, elSrcUV.v[huv, wuv], mmrBlY, blU, blV);
  }
}
