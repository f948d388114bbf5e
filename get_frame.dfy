// The per-frame driver (DoViBaker.cpp GetFrame): the early return when the
// processor cannot initialise the frame, the choice of LUT, the decision to
// bypass the enhancement layer, the fatal missing-EL error, and the choice
// between the fast path and the staged path with the resampling passes the
// staged path runs before and after applyDovi.
module GetFrame {
  import opened Planes
  import opened Upsample
  import ApplyDovi
  import opened QuickAndDirty
  import opened Convert
  import opened Lut

  /** The filter's settings, fixed when it is constructed. `thresholds` are the LUTs' light-level thresholds, in order. */
  datatype Config = Config(blChromaSubSampled: bool, elChromaSubSampled: bool, quarterResolutionEl: bool,
                           qnd: bool, outYuv: bool, hasElClip: bool, thresholds: seq<int>)

  /** What the processor reports for the current frame. */
  datatype FrameInfo = FrameInfo(initialised: bool, isFel: bool, elProcessingDisabled: bool, maxContentLightLevel: int)

  /**
   * What GetFrame hands back: the unfilled frame of a failed initialisation,
   * the host error for a missing enhancement clip, an RGB frame (with the LUT
   * that is then applied to it, if any), or the normalised YUV frame.
   */
  datatype Output = Blank | Failed | RgbFrame(rgb: array2<Rgb>, lut: Option<nat>) | YuvFrame(yuv: Yuv)

  function Bit(b: bool): nat
  {
    if b then 1 else 0
  }

  // ---------------------------------------------------------------------
  // Decisions
  // ---------------------------------------------------------------------

  /** EL processing is skipped (and forced off in the processor) when there is no EL clip, the stream is not FEL, or the processor has disabled it. */
  predicate SkipEl(c: Config, f: FrameInfo)
  {
    !c.hasElClip || !f.isFel || f.elProcessingDisabled
  }

  /** A full enhancement layer without an enhancement clip is a fatal error. */
  predicate ElMissing(c: Config, f: FrameInfo)
  {
    f.isFel && !c.hasElClip
  }

  /** The error case is one where EL processing has already been switched off. */
  lemma ElMissingSkipsEl(c: Config, f: FrameInfo)
    ensures ElMissing(c, f) ==> SkipEl(c, f)
    ensures !SkipEl(c, f) ==> c.hasElClip && f.isFel && !f.elProcessingDisabled
  {
  }

  /** The chroma subsampling of the frame applyDovi works on: the base layer's, unless one layer's chroma was brought up to 4:4:4 to match the other. */
  predicate FrameChromaSubSampled(c: Config, skip: bool)
  {
    c.blChromaSubSampled && (skip || c.elChromaSubSampled)
  }

  /** The resampling passes of the staged path. */
  datatype Steps = Steps(upscaleEl: bool, elChroma: bool, blChroma: bool, mezChroma: bool)

  /** Which resampling passes the staged path runs. */
  function StagedSteps(c: Config, skip: bool): Steps
  {
    Steps(!skip && c.quarterResolutionEl,
          !skip && !c.blChromaSubSampled && c.elChromaSubSampled,
          !skip && c.blChromaSubSampled && !c.elChromaSubSampled,
          FrameChromaSubSampled(c, skip) && !c.outYuv)
  }

  /**
   * The layouts the staged path feeds to applyDovi agree: the base chroma,
   * the enhancement chroma (the base layer's own when EL is bypassed) and the
   * frame it writes are 4:2:0 exactly when applyDovi runs at S = 1; at most
   * one layer's chroma is brought up, no enhancement pass runs when EL is
   * bypassed, and RGB output always converts a 4:4:4 frame.
   */
  lemma StagedLayoutsAgree(c: Config, skip: bool)
    ensures var st, sub := StagedSteps(c, skip), FrameChromaSubSampled(c, skip);
      (c.blChromaSubSampled && !st.blChroma <==> sub) &&
      ((if skip then c.blChromaSubSampled else c.elChromaSubSampled && !st.elChroma) <==> sub) &&
      (MezIs444(c, skip) <==> !sub) &&
      !(st.elChroma && st.blChroma) &&
      (skip ==> !st.upscaleEl && !st.elChroma && !st.blChroma) &&
      (!c.outYuv ==> (st.mezChroma <==> !MezIs444(c, skip)))
  {
  }

  /**
   * The chroma layout of the frame applyDovi writes, as allocated in the
   * source: 4:4:4 when the base is 4:2:0 and the enhancement 4:4:4, and
   * otherwise the base clip's own layout.
   */
  predicate MezIs444AsWritten(c: Config)
  {
    if c.blChromaSubSampled && !c.elChromaSubSampled then true else !c.blChromaSubSampled
  }

  /** The chroma layout of the frame applyDovi writes: 4:4:4 exactly when applyDovi runs at S = 0. */
  predicate MezIs444(c: Config, skip: bool)
  {
    !FrameChromaSubSampled(c, skip)
  }

  /** The allocation as written agrees with the layout applyDovi writes except when EL is bypassed for a 4:2:0 base and a 4:4:4 enhancement setting. */
  lemma MezAsWrittenDiffers(c: Config, skip: bool)
    ensures MezIs444AsWritten(c) != MezIs444(c, skip) <==> skip && c.blChromaSubSampled && !c.elChromaSubSampled
  {
  }

  /**
   * In that case the source runs applyDovi at S = 1 into a frame whose chroma
   * planes have the luma's dimensions, which applyDovi's layout excludes for
   * any non-empty frame: it fills only a quarter of each chroma plane.
   */
  lemma MezAsWrittenBreaksApplyDovi(mez: Yuv, bl: Yuv)
    requires HasShape(mez, bl.y.Length0, bl.y.Length1, bl.y.Length0, bl.y.Length1)
    requires bl.u.Length0 > 0
    ensures !ApplyDovi.Inputs(mez, bl, bl, bl, bl, 1)
  {
  }

  // ---------------------------------------------------------------------
  // The staged path on values
  // ---------------------------------------------------------------------

  /** upsampleChroma on values: both chroma planes doubled in each direction by the chroma kernel; the luma plane is not involved. */
  function ChromaUp(p: Processor, f: Frame, h: nat, w: nat, hc: nat, wc: nat): (g: Frame)
    requires Shaped(f, h, w, hc, wc) && wc >= 3
    ensures Shaped(g, h, w, 2 * hc, 2 * wc)
    ensures g.y == f.y
  {
    Frame(f.y, Up2(f.u, wc, ChromaKernel(p)), Up2(f.v, wc, ChromaKernel(p)))
  }

  /** upscaleEl on values: every plane doubled in each direction, luma by the luma kernel and chroma by the chroma kernel. */
  function ElUp(p: Processor, f: Frame, h: nat, w: nat, hc: nat, wc: nat): (g: Frame)
    requires Shaped(f, h, w, hc, wc) && w >= 4 && wc >= 3
    ensures Shaped(g, 2 * h, 2 * w, 2 * hc, 2 * wc)
  {
    Frame(Up2(f.y, w, LumaKernel(p)), Up2(f.u, wc, ChromaKernel(p)), Up2(f.v, wc, ChromaKernel(p)))
  }

  /** applyDovi<S> on values: luma from the two luma planes, chroma from the two chroma sources and the base luma. */
  function Mapped(p: Processor, S: nat, blY: Plane, blUV: Frame, elY: Plane, elUV: Frame, hc: nat, wc: nat): (m: Frame)
    requires S <= 1 && IsRect(blY, Up(S, hc), Up(S, wc)) && IsRect(elY, Up(S, hc), Up(S, wc))
    requires ApplyDovi.ChromaFor(blUV.u, blUV.v, elUV.u, elUV.v, hc, wc)
    requires S == 1 && hc > 0 ==> wc >= 2
    ensures Shaped(m, Up(S, hc), Up(S, wc), hc, wc)
  {
    Frame(ApplyDovi.DoviY(p, blY, elY, Up(S, hc), Up(S, wc)),
          ApplyDovi.DoviU(p, S, blY, blUV.u, blUV.v, elUV.u, elUV.v, hc, wc),
          ApplyDovi.DoviV(p, S, blY, blUV.u, blUV.v, elUV.u, elUV.v, hc, wc))
  }

  /**
   * The frames the staged path reads: a base frame with chroma hb x wb and
   * subsampling blS; unless EL is bypassed, an enhancement frame with chroma
   * he x we and subsampling elS whose luma, doubled when q = 1, has the base
   * luma's dimensions; and the plane widths the resampling passes that run
   * need.
   */
  predicate StagedFrames(c: Config, skip: bool, bl: Frame, el: Frame, hb: nat, wb: nat, he: nat, we: nat)
  {
    var blS, elS, q, st := Bit(c.blChromaSubSampled), Bit(c.elChromaSubSampled), Bit(c.quarterResolutionEl), StagedSteps(c, skip);
    Shaped(bl, Shl(hb, blS), Shl(wb, blS), hb, wb) &&
    (FrameChromaSubSampled(c, skip) && hb > 0 ==> wb >= 2) &&
    (st.blChroma || st.mezChroma ==> wb >= 3) &&
    (!skip ==>
      Shaped(el, Shl(he, elS), Shl(we, elS), he, we) &&
      Shl(Shl(he, elS), q) == Shl(hb, blS) && Shl(Shl(we, elS), q) == Shl(wb, blS) &&
      (st.upscaleEl ==> Shl(we, elS) >= 4 && we >= 3) &&
      (st.elChroma ==> Shl(we, q) >= 3))
  }

  /** The enhancement frame applyDovi reads, with its chroma dimensions: the EL upscaled when it is quarter resolution. */
  function ElAtBase(c: Config, p: Processor, el: Frame, he: nat, we: nat): (r: (Frame, nat, nat))
    requires Shaped(el, Shl(he, Bit(c.elChromaSubSampled)), Shl(we, Bit(c.elChromaSubSampled)), he, we)
    requires c.quarterResolutionEl ==> Shl(we, Bit(c.elChromaSubSampled)) >= 4 && we >= 3
    ensures var elS, q := Bit(c.elChromaSubSampled), Bit(c.quarterResolutionEl);
      r.1 == Shl(he, q) && r.2 == Shl(we, q) &&
      Shaped(r.0, Shl(Shl(he, elS), q), Shl(Shl(we, elS), q), r.1, r.2)
  {
    var elS := Bit(c.elChromaSubSampled);
    if c.quarterResolutionEl then (ElUp(p, el, Shl(he, elS), Shl(we, elS), he, we), 2 * he, 2 * we)
    else (el, he, we)
  }

  /** The frames applyDovi reads on the staged path, and the chroma dimensions it runs at. */
  datatype Layers = Layers(blUV: Frame, elR: Frame, elUV: Frame, hc: nat, wc: nat)

  /**
   * The frames the staged path hands to applyDovi: the base frame alone when
   * EL is bypassed; otherwise the enhancement layer at base resolution and,
   * when the layers' chroma differ, the 4:2:0 one's chroma brought up to
   * 4:4:4, so that both chroma sources have the dimensions applyDovi runs at.
   */
  function StagedLayers(c: Config, skip: bool, p: Processor, bl: Frame, el: Frame, hb: nat, wb: nat, he: nat, we: nat): (l: Layers)
    requires StagedFrames(c, skip, bl, el, hb, wb, he, we)
    ensures var S, blS := Bit(FrameChromaSubSampled(c, skip)), Bit(c.blChromaSubSampled);
      Up(S, l.hc) == Shl(hb, blS) && Up(S, l.wc) == Shl(wb, blS) &&
      (S == 1 ==> l.hc == hb && l.wc == wb) &&
      (S == 1 && l.hc > 0 ==> l.wc >= 2) &&
      IsRect(l.elR.y, Up(S, l.hc), Up(S, l.wc)) &&
      ApplyDovi.ChromaFor(l.blUV.u, l.blUV.v, l.elUV.u, l.elUV.v, l.hc, l.wc)
  {
    var blS, elS := Bit(c.blChromaSubSampled), Bit(c.elChromaSubSampled);
    var H, W := Shl(hb, blS), Shl(wb, blS);
    if skip then Layers(bl, bl, bl, hb, wb)
    else
      var (elR, hr, wr) := ElAtBase(c, p, el, he, we);
      if blS == 1 && elS == 1 then Layers(bl, elR, elR, hb, wb)
      else if blS == 1 then Layers(ChromaUp(p, bl, H, W, hb, wb), elR, elR, H, W)
      else if elS == 1 then Layers(bl, elR, ChromaUp(p, elR, H, W, hr, wr), H, W)
      else Layers(bl, elR, elR, H, W)
  }

  /** The frame the staged path produces with applyDovi: the staged layers mapped at the frame's chroma subsampling. */
  function StagedMez(c: Config, skip: bool, p: Processor, bl: Frame, el: Frame, hb: nat, wb: nat, he: nat, we: nat): (m: Frame)
    requires StagedFrames(c, skip, bl, el, hb, wb, he, we)
    ensures var blS := Bit(c.blChromaSubSampled);
      if FrameChromaSubSampled(c, skip) then Shaped(m, Shl(hb, blS), Shl(wb, blS), hb, wb)
      else Shaped(m, Shl(hb, blS), Shl(wb, blS), Shl(hb, blS), Shl(wb, blS))
  {
    var l := StagedLayers(c, skip, p, bl, el, hb, wb, he, we);
    Mapped(p, Bit(FrameChromaSubSampled(c, skip)), bl.y, l.blUV, l.elR.y, l.elUV, l.hc, l.wc)
  }

  /** The RGB image of the staged path: the frame from applyDovi, its chroma brought up to 4:4:4 when it is 4:2:0, converted. */
  function StagedRgb(c: Config, skip: bool, p: Processor, bl: Frame, el: Frame, hb: nat, wb: nat, he: nat, we: nat): (m: Image)
    requires StagedFrames(c, skip, bl, el, hb, wb, he, we) && !c.outYuv
    ensures var blS := Bit(c.blChromaSubSampled); |m| == Shl(hb, blS)
  {
    var blS := Bit(c.blChromaSubSampled);
    var H, W := Shl(hb, blS), Shl(wb, blS);
    var mez := StagedMez(c, skip, p, bl, el, hb, wb, he, we);
    var mez444 := if FrameChromaSubSampled(c, skip) then ChromaUp(p, mez, H, W, hb, wb) else mez;
    RgbImage(p, mez.y, mez444.u, mez444.v, H, W)
  }

  // ---------------------------------------------------------------------
  // The driver
  // ---------------------------------------------------------------------

  /** The enhancement frame of the current frame: the EL clip's frame, or the base frame when there is no EL clip. */
  function ElClip(c: Config, blSrc: Yuv, elSrc: Yuv): Yuv
  {
    if c.hasElClip then elSrc else blSrc
  }

  /** The frames the staged path reads, as arrays: their planes have the dimensions StagedFrames asks of their contents. */
  ghost predicate StagedArrays(c: Config, skip: bool, blSrc: Yuv, elSrc: Yuv)
    reads blSrc.y, blSrc.u, blSrc.v, elSrc.y, elSrc.u, elSrc.v
  {
    var blS, elS := Bit(c.blChromaSubSampled), Bit(c.elChromaSubSampled);
    var hb, wb, he, we := blSrc.u.Length0, blSrc.u.Length1, elSrc.u.Length0, elSrc.u.Length1;
    HasShape(blSrc, Shl(hb, blS), Shl(wb, blS), hb, wb) &&
    (!skip ==> HasShape(elSrc, Shl(he, elS), Shl(we, elS), he, we)) &&
    StagedFrames(c, skip, SnapYuv(blSrc), SnapYuv(elSrc), hb, wb, he, we)
  }

  /** The enhancement frame at base resolution: upscaleEl into a new frame when the EL is quarter resolution, the EL frame itself otherwise. */
  method ElToBase(c: Config, elSrc: Yuv, p: Processor) returns (elR: Yuv)
    requires var elS, he, we := Bit(c.elChromaSubSampled), elSrc.u.Length0, elSrc.u.Length1;
      HasShape(elSrc, Shl(he, elS), Shl(we, elS), he, we) &&
      (c.quarterResolutionEl ==> Shl(we, elS) >= 4 && we >= 3)
    ensures var elS, q, he, we := Bit(c.elChromaSubSampled), Bit(c.quarterResolutionEl), elSrc.u.Length0, elSrc.u.Length1;
      HasShape(elR, Shl(Shl(he, elS), q), Shl(Shl(we, elS), q), Shl(he, q), Shl(we, q)) &&
      SnapYuv(elR) == ElAtBase(c, p, SnapYuv(elSrc), he, we).0
    ensures !c.quarterResolutionEl ==> elR == elSrc
    ensures c.quarterResolutionEl ==> fresh(elR.y) && fresh(elR.u) && fresh(elR.v) && Distinct(elR)
  {
    elR := elSrc;
    if c.quarterResolutionEl {
      var elUpSrc := NewFrame(2 * elSrc.y.Length0, 2 * elSrc.y.Length1, 2 * elSrc.u.Length0, 2 * elSrc.u.Length1);
      UpscaleEl(elUpSrc, elSrc, p);
      elR := elUpSrc;
    }
  }

  /** upsampleChroma into a new frame of the source's luma dimensions; only its chroma planes are written. */
  method ChromaTo444(src: Yuv, p: Processor) returns (dst: Yuv)
    requires src.u.Length1 >= 3 && HasShape(src, 2 * src.u.Length0, 2 * src.u.Length1, src.u.Length0, src.u.Length1)
    ensures fresh(dst.y) && fresh(dst.u) && fresh(dst.v)
    ensures var h, w := src.y.Length0, src.y.Length1;
      HasShape(dst, h, w, h, w) &&
      Snap(dst.u) == ChromaUp(p, SnapYuv(src), h, w, src.u.Length0, src.u.Length1).u &&
      Snap(dst.v) == ChromaUp(p, SnapYuv(src), h, w, src.u.Length0, src.u.Length1).v
  {
    dst := NewFrame(src.y.Length0, src.y.Length1, src.y.Length0, src.y.Length1);
    UpsampleChroma(dst, src, p);
  }

  /** The chroma planes of `f` hold the chroma of `v`, with `hc` rows of `wc` samples. */
  ghost predicate ChromaIs(f: Yuv, v: Frame, hc: nat, wc: nat)
    reads f.u, f.v
  {
    f.u.Length0 == hc && f.u.Length1 == wc && f.v.Length0 == hc && f.v.Length1 == wc &&
    Snap(f.u) == v.u && Snap(f.v) == v.v
  }

  /**
   * The staged path before applyDovi: brings the enhancement layer to base
   * resolution and, when the layers' chroma differ, the 4:2:0 layer's chroma
   * up to 4:4:4, each into a new frame. When EL is bypassed the base frame
   * stands in for the enhancement frame.
   */
  method PrepareLayers(c: Config, skip: bool, blSrc: Yuv, elSrc: Yuv, p: Processor, ghost bl: Frame, ghost el: Frame)
    returns (blUV: Yuv, elR: Yuv, elUV: Yuv, frameChromaSubSampled: bool)
    requires StagedArrays(c, skip, blSrc, elSrc) && bl == SnapYuv(blSrc) && el == SnapYuv(elSrc)
    ensures frameChromaSubSampled == FrameChromaSubSampled(c, skip)
    ensures var l := StagedLayers(c, skip, p, bl, el, blSrc.u.Length0, blSrc.u.Length1, elSrc.u.Length0, elSrc.u.Length1);
      var S := Bit(frameChromaSubSampled);
      ChromaIs(blUV, l.blUV, l.hc, l.wc) && ChromaIs(elUV, l.elUV, l.hc, l.wc) &&
      elR.y.Length0 == Up(S, l.hc) && elR.y.Length1 == Up(S, l.wc) && Snap(elR.y) == l.elR.y
    ensures var st := StagedSteps(c, skip);
      (st.upscaleEl ==> fresh(elR.y) && fresh(elR.u) && fresh(elR.v)) &&
      (!st.upscaleEl ==> elR == if skip then blSrc else elSrc)
    ensures var st := StagedSteps(c, skip);
      (st.blChroma ==> fresh(blUV.u) && fresh(blUV.v)) && (!st.blChroma ==> blUV == blSrc)
    ensures var st := StagedSteps(c, skip);
      (st.elChroma ==> fresh(elUV.u) && fresh(elUV.v)) && (!st.elChroma ==> elUV == elR)
  {
    blUV, elR, elUV := blSrc, elSrc, elSrc;
    frameChromaSubSampled := c.blChromaSubSampled;
    if !skip {
      elR := ElToBase(c, elSrc, p);
      elUV := elR;
      if !c.blChromaSubSampled && c.elChromaSubSampled {
        elUV := ChromaTo444(elR, p);
        frameChromaSubSampled := false;
      }
      if c.blChromaSubSampled && !c.elChromaSubSampled {
        blUV := ChromaTo444(blSrc, p);
        frameChromaSubSampled := false;
      }
    } else {
      elR, elUV := blSrc, blSrc;
    }
  }

  /**
   * applyDovi into a new frame allocated in the layout it writes at S: luma
   * of the base luma's dimensions, chroma of the chroma sources' dimensions.
   */
  method MapInto(blSrcY: Yuv, blSrcUV: Yuv, elSrcY: Yuv, elSrcUV: Yuv, S: nat, p: Processor, ghost l: Layers)
    returns (mez: Yuv)
    requires S <= 1 && (S == 1 && l.hc > 0 ==> l.wc >= 2)
    requires ChromaIs(blSrcUV, l.blUV, l.hc, l.wc) && ChromaIs(elSrcUV, l.elUV, l.hc, l.wc)
    requires blSrcY.y.Length0 == Up(S, l.hc) && blSrcY.y.Length1 == Up(S, l.wc)
    requires elSrcY.y.Length0 == Up(S, l.hc) && elSrcY.y.Length1 == Up(S, l.wc) && Snap(elSrcY.y) == l.elR.y
    ensures fresh(mez.y) && fresh(mez.u) && fresh(mez.v) && Distinct(mez)
    ensures HasShape(mez, Up(S, l.hc), Up(S, l.wc), l.hc, l.wc)
    ensures SnapYuv(mez) == Mapped(p, S, Snap(blSrcY.y), l.blUV, l.elR.y, l.elUV, l.hc, l.wc)
  {
    var hc, wc := blSrcUV.u.Length0, blSrcUV.u.Length1;
    mez := NewFrame(Up(S, hc), Up(S, wc), hc, wc);
    ApplyDovi.ApplyDovi(mez, blSrcY, blSrcUV, elSrcY, elSrcUV, S, p);
  }

  /**
   * The staged path up to applyDovi: the prepared layers are mapped into a
   * new frame allocated in the layout applyDovi writes.
   */
  method StagedPath(c: Config, skip: bool, blSrc: Yuv, elSrc: Yuv, p: Processor) returns (mez: Yuv, frameChromaSubSampled: bool)
    requires StagedArrays(c, skip, blSrc, elSrc)
    ensures fresh(mez.y) && fresh(mez.u) && fresh(mez.v) && Distinct(mez)
    ensures frameChromaSubSampled == FrameChromaSubSampled(c, skip)
    ensures var hb, wb := blSrc.u.Length0, blSrc.u.Length1;
      var H, W := Shl(hb, Bit(c.blChromaSubSampled)), Shl(wb, Bit(c.blChromaSubSampled));
      if frameChromaSubSampled then HasShape(mez, H, W, hb, wb) else HasShape(mez, H, W, H, W)
    ensures SnapYuv(mez) == StagedMez(c, skip, p, SnapYuv(blSrc), SnapYuv(elSrc),
      blSrc.u.Length0, blSrc.u.Length1, elSrc.u.Length0, elSrc.u.Length1)
  {
    ghost var bl, el := SnapYuv(blSrc), SnapYuv(elSrc);
    ghost var l := StagedLayers(c, skip, p, bl, el, blSrc.u.Length0, blSrc.u.Length1, elSrc.u.Length0, elSrc.u.Length1);
    var blUV, elR, elUV;
    blUV, elR, elUV, frameChromaSubSampled := PrepareLayers(c, skip, blSrc, elSrc, p, bl, el);
    mez := MapInto(blSrc, blUV, elR, elUV, Bit(frameChromaSubSampled), p, l);
  }

  /**
   * The staged path after applyDovi for RGB output: a 4:2:0 frame first has
   * its chroma brought up into a new 4:4:4 frame, then convert2rgb fills `dst`.
   */
  method MezToRgb(dst: array2<Rgb>, mez: Yuv, frameChromaSubSampled: bool, p: Processor)
    requires Distinct(mez) && dst.Length0 == mez.y.Length0 && dst.Length1 == mez.y.Length1
    requires frameChromaSubSampled ==> HasShape(mez, 2 * mez.u.Length0, 2 * mez.u.Length1, mez.u.Length0, mez.u.Length1) && mez.u.Length1 >= 3
    requires !frameChromaSubSampled ==> HasShape(mez, mez.y.Length0, mez.y.Length1, mez.y.Length0, mez.y.Length1)
    modifies dst
    ensures var m := SnapYuv(mez); var h, w := mez.y.Length0, mez.y.Length1;
      SnapRgb(dst) == if frameChromaSubSampled
        then var m444 := ChromaUp(p, m, h, w, mez.u.Length0, mez.u.Length1); RgbImage(p, m.y, m444.u, m444.v, h, w)
        else RgbImage(p, m.y, m.u, m.v, h, w)
  {
    if frameChromaSubSampled {
      var mez444 := NewFrame(mez.y.Length0, mez.y.Length1, mez.y.Length0, mez.y.Length1);
      UpsampleChroma(mez444, mez, p);
      Convert2Rgb(dst, mez, mez444, p);
    } else {
      Convert2Rgb(dst, mez, mez, p);
    }
  }

  /** The frames of the current frame fit the path GetFrame takes: the fast path's layouts, or the staged path's. */
  ghost predicate FramesFit(c: Config, skip: bool, blSrc: Yuv, elSrc: Yuv)
    reads blSrc.y, blSrc.u, blSrc.v, elSrc.y, elSrc.u, elSrc.v
  {
    if c.qnd then
      !c.outYuv &&
      Layouts(blSrc, elSrc, Bit(c.blChromaSubSampled), Bit(c.elChromaSubSampled), Bit(c.quarterResolutionEl))
    else StagedArrays(c, skip, blSrc, elSrc)
  }

  /**
   * DoViBaker.cpp GetFrame for one frame, given the base layer's frame, the
   * EL clip's frame (ignored when there is no EL clip) and what the
   * processor reports once it has initialised the frame. Returns the output,
   * the LUT selected for the frame and whether EL processing was forced off
   * in the processor.
   */
  method GetFrame(c: Config, f: FrameInfo, blSrc: Yuv, elClipSrc: Yuv, p: Processor)
    returns (out: Output, lut: Option<nat>, elForcedOff: bool)
    requires f.initialised && !ElMissing(c, f) ==> FramesFit(c, SkipEl(c, f), blSrc, ElClip(c, blSrc, elClipSrc))
    ensures !f.initialised ==> out == Blank && lut == None && !elForcedOff
    ensures f.initialised ==> lut == LutChoice(c.thresholds, f.maxContentLightLevel) && elForcedOff == SkipEl(c, f)
    ensures f.initialised && ElMissing(c, f) ==> out == Failed
    ensures f.initialised && !ElMissing(c, f) && c.qnd ==>
      var el := ElClip(c, blSrc, elClipSrc);
      out.RgbFrame? && out.lut == lut && fresh(out.rgb) &&
      SnapRgb(out.rgb) == QndImage(p, Bit(c.blChromaSubSampled), Bit(c.elChromaSubSampled), Bit(c.quarterResolutionEl),
        SnapYuv(blSrc), SnapYuv(el), el.u.Length0, el.u.Length1)
    ensures f.initialised && !ElMissing(c, f) && !c.qnd && c.outYuv ==>
      var el := ElClip(c, blSrc, elClipSrc);
      out.YuvFrame? && fresh(out.yuv.y) && fresh(out.yuv.u) && fresh(out.yuv.v) &&
      SnapYuv(out.yuv) == StagedMez(c, SkipEl(c, f), p, SnapYuv(blSrc), SnapYuv(el),
        blSrc.u.Length0, blSrc.u.Length1, el.u.Length0, el.u.Length1)
    ensures f.initialised && !ElMissing(c, f) && !c.qnd && !c.outYuv ==>
      var el := ElClip(c, blSrc, elClipSrc);
      out.RgbFrame? && out.lut == lut && fresh(out.rgb) &&
      SnapRgb(out.rgb) == StagedRgb(c, SkipEl(c, f), p, SnapYuv(blSrc), SnapYuv(el),
        blSrc.u.Length0, blSrc.u.Length1, el.u.Length0, el.u.Length1)
  {
    out, lut, elForcedOff := Blank, None, false;
    if !f.initialised {
      return;
    }
    lut := SelectLut(c.thresholds, f.maxContentLightLevel);
    var skipElProcessing := false;
    if !c.hasElClip || !f.isFel || f.elProcessingDisabled {
      skipElProcessing := true;
      elForcedOff := true;
    }
    if f.isFel && !c.hasElClip {
      out := Failed;
      return;
    }
    var elSrc := if c.hasElClip then elClipSrc else blSrc;
    if c.qnd {
      var dst := QndFrame(c, blSrc, elSrc, p);
      out := RgbFrame(dst, lut);
    } else {
      out := StagedFrame(c, skipElProcessing, blSrc, elSrc, p, lut);
    }
  }

  /** The fast path: doAllQuickAndDirty into a new RGB frame of the base luma's dimensions. */
  method QndFrame(c: Config, blSrc: Yuv, elSrc: Yuv, p: Processor) returns (dst: array2<Rgb>)
    requires Layouts(blSrc, elSrc, Bit(c.blChromaSubSampled), Bit(c.elChromaSubSampled), Bit(c.quarterResolutionEl))
    ensures fresh(dst)
    ensures SnapRgb(dst) == QndImage(p, Bit(c.blChromaSubSampled), Bit(c.elChromaSubSampled), Bit(c.quarterResolutionEl),
      SnapYuv(blSrc), SnapYuv(elSrc), elSrc.u.Length0, elSrc.u.Length1)
  {
    dst := new Rgb[blSrc.y.Length0, blSrc.y.Length1];
    DoAllQuickAndDirty(dst, blSrc, elSrc, Bit(c.blChromaSubSampled), Bit(c.elChromaSubSampled), Bit(c.quarterResolutionEl), p);
  }

  /** The staged path: the frame from applyDovi for YUV output, or its RGB conversion (carrying the frame's LUT) for RGB output. */
  method StagedFrame(c: Config, skip: bool, blSrc: Yuv, elSrc: Yuv, p: Processor, lut: Option<nat>) returns (out: Output)
    requires StagedArrays(c, skip, blSrc, elSrc)
    ensures c.outYuv ==>
      out.YuvFrame? && fresh(out.yuv.y) && fresh(out.yuv.u) && fresh(out.yuv.v) &&
      SnapYuv(out.yuv) == StagedMez(c, skip, p, SnapYuv(blSrc), SnapYuv(elSrc),
        blSrc.u.Length0, blSrc.u.Length1, elSrc.u.Length0, elSrc.u.Length1)
    ensures !c.outYuv ==>
      out.RgbFrame? && out.lut == lut && fresh(out.rgb) &&
      SnapRgb(out.rgb) == StagedRgb(c, skip, p, SnapYuv(blSrc), SnapYuv(elSrc),
        blSrc.u.Length0, blSrc.u.Length1, elSrc.u.Length0, elSrc.u.Length1)
  {
    ghost var bl, el := SnapYuv(blSrc), SnapYuv(elSrc);
    var mez, frameChromaSubSampled := StagedPath(c, skip, blSrc, elSrc, p);
    if c.outYuv {
      out := YuvFrame(mez);
      return;
    }
    ghost var m := SnapYuv(mez);
    var dst := new Rgb[mez.y.Length0, mez.y.Length1];
    MezToRgb(dst, mez, frameChromaSubSampled, p);
    out := RgbFrame(dst, lut);
    assert SnapYuv(mez) == m && SnapYuv(blSrc) == bl && SnapYuv(elSrc) == el;
  }

  /**
   * Where no resampling is involved (both layers 4:4:4, the EL at full
   * resolution, EL processed) the fast path and the staged path produce the
   * same RGB image: the chroma-conditioning luma is then the base luma at the
   * chroma sample's own position on both paths.
   */
  lemma {:induction false} FastMatchesStaged444(c: Config, p: Processor, bl: Frame, el: Frame, h: nat, w: nat)
    requires !c.blChromaSubSampled && !c.elChromaSubSampled && !c.quarterResolutionEl && !c.outYuv
    requires Shaped(bl, h, w, h, w) && Shaped(el, h, w, h, w)
    ensures StagedFrames(c, false, bl, el, h, w, h, w) && LayoutsV(bl, el, 0, 0, 0, h, w)
    ensures QndImage(p, 0, 0, 0, bl, el, h, w) == StagedRgb(c, false, p, bl, el, h, w, h, w)
  {
    var fast, staged := QndImage(p, 0, 0, 0, bl, el, h, w), StagedRgb(c, false, p, bl, el, h, w, h, w);
    var mez := StagedMez(c, false, p, bl, el, h, w, h, w);
    assert mez == Mapped(p, 0, bl.y, bl, el.y, el, h, w);
    forall Y, X | 0 <= Y < h && 0 <= X < w
      ensures fast[Y][X] == staged[Y][X]
    {
      assert ApplyDovi.MmrBlY(bl.y, 0, h, w, Y, X) == bl.y[Y][X];
    }
    ImageExt(fast, staged, h, w);
  }
}
