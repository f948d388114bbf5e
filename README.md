# DoViBaker frame reconstruction, modelled in Dafny

DoViBaker is an AviSynth filter that rebuilds Dolby Vision video. For each frame it
combines the base layer (BL) and the enhancement layer (EL) sample by sample, through
the reshaping services of a `DoViProcessor`. The result is either an RGB frame, to
which a 3D LUT chosen by the frame's content light level may then be applied, or a
normalised 16-bit YUV frame.

This project models the pixel-assembly core of `DoViBaker/DoViBaker.cpp` and proves
what it computes:

- `upsample.dfy`: the polyphase 2x upsamplers `upsampleVert` and `upsampleHorz`, and
  the two passes built from them, `upscaleEl` and `upsampleChroma`. The clamped tap
  windows are modelled, as are the left/interior/right column split and the
  even/odd generators.
- `apply_dovi.dfy`: the staged combiner `applyDovi<S>`, including the fixed-point luma
  proxy `mmrBlY` with its left-border, interior and right-border filters.
- `quick_and_dirty.dfy`: the single-pass fast combiner `doAllQuickAndDirty`, with its
  shift-based index mapping between the EL chroma, BL chroma, BL luma and EL luma grids.
- `convert.dfy`: `convert2rgb`.
- `lut.dfy`: the per-frame LUT selection.
- `get_frame.dfy`: `GetFrame`. It covers:
  - the early return when the frame cannot be initialised;
  - LUT selection;
  - the EL-bypass decision and the fatal missing-EL error;
  - the fast path versus the staged path, with the resampling passes the staged path runs.

`planes.dfy` holds the shared vocabulary.

How the model is built:

- **Samples and planes.** A sample is an integer in `[0, 65536)`. Each pass writes
  planes in place as `array2<Sample>`; the row pitch and address stepping of the source
  become array indices. The specifications speak about the value of a plane
  (`Snap`, a `seq<seq<Sample>>`).
- **Method contracts.** Every pass is a method whose `ensures` ties the written arrays
  to a specification function of the input values. Lemmas then state what those
  functions promise.
- **Template parameters** (`quarterResolutionEl`, the subsampling flags, `vertLen`,
  `nD`) become ordinary arguments.
- **`DoViProcessor` services** (`processSampleY/U/V`, `sample2rgb`, and the luma and
  chroma upsampling generators) are not part of this model. They are the
  function-typed fields of a `Processor` value passed to every pass, so each is
  treated as a fixed, unknown function of its arguments.

## Model

| member | source | states |
|---|---|---|
| Planes.NewFrame | DoViBaker/DoViBaker.cpp:642 | a newly allocated frame has the requested plane dimensions and three distinct, fresh planes |
| Planes.ShrIsBlock | DoViBaker/DoViBaker.cpp:437-456 | `r >> s == n` exactly when `r` lies in the block of 2^s samples starting at `n << s`, which makes the fast path's shifts a partition of the grid |
| Upsample.LumaKernel | DoViBaker/DoViBaker.cpp:244 | the luma kernel, offsets -2..2 around centre index 2, is centred and contiguous, with vertLen 5 |
| Upsample.ChromaKernel | DoViBaker/DoViBaker.cpp:245 | the chroma kernel, offsets -1..2 around centre index 1, is centred and contiguous, with vertLen 4 |
| Upsample.VertTap | DoViBaker/DoViBaker.cpp:80-89 | for any source height >= 1 every tap row lies in [0, srcHeight-1]; the centre tap is row h; every other tap is h + offset clamped to the plane |
| Upsample.VertUp | DoViBaker/DoViBaker.cpp:80-101 | the doubled plane has twice the rows; row 2h comes from the even generator and row 2h+1 from the odd one, over the same gathered column window |
| Upsample.UpsampleVert | DoViBaker/DoViBaker.cpp:63-102 | the destination plane equals `VertUp` of the source |
| Upsample.HorzTap | DoViBaker/DoViBaker.cpp:116-141 | when srcWidth >= nD+pD every read column lies in [0, srcWidth-1]; on all three column ranges it is column w+i-nD clamped, so each border window is the interior window clamped into the plane |
| Upsample.HorzUp | DoViBaker/DoViBaker.cpp:119-144 | the doubled plane has twice the columns; column 2w comes from the even generator and 2w+1 from the odd one, over the window of column w |
| Upsample.UpsampleHorz | DoViBaker/DoViBaker.cpp:104-145 | the destination plane equals `HorzUp` of the source |
| Upsample.UpsampleHorzRow | DoViBaker/DoViBaker.cpp:119-143 | the left, interior and right ranges together write every destination column of row h, and no other row changes |
| Upsample.HorzInterior | DoViBaker/DoViBaker.cpp:120-123 | the interior columns nD <= w < srcWidth-pD get their `HorzUp` values from the window starting at w-nD; nothing else changes |
| Upsample.HorzLeft | DoViBaker/DoViBaker.cpp:124-132 | columns w < nD get their `HorzUp` values, with the taps before the centre clamped to column 0; nothing else changes |
| Upsample.HorzRight | DoViBaker/DoViBaker.cpp:133-141 | columns w >= srcWidth-pD get their `HorzUp` values, with the taps after the centre clamped to the last column; nothing else changes |
| Upsample.VertUpConstant | DoViBaker/DoViBaker.cpp:91-97 | if both generators return K for an all-K window, a constant-K plane stays constant-K under the vertical pass, border rows included |
| Upsample.HorzUpConstant | DoViBaker/DoViBaker.cpp:119-141 | the same for the horizontal pass, border columns included |
| Upsample.UpsampleBothConstant | DoViBaker/DoViBaker.cpp:238-264 | the vertical-then-horizontal chain of upscaleEl and upsampleChroma keeps a constant plane constant |
| Upsample.Up2 | DoViBaker/DoViBaker.cpp:241-250 | doubling along both axes yields twice the rows and twice the columns |
| Upsample.UpscaleEl | DoViBaker/DoViBaker.cpp:238-251 | every plane of the destination is its source plane doubled in both directions: luma with the luma kernel, U and V with the chroma kernel |
| Upsample.UpsampleChroma | DoViBaker/DoViBaker.cpp:253-264 | both chroma planes of the destination are the source chroma doubled in both directions with the chroma kernel |
| ApplyDovi.Filter121 | DoViBaker/DoViBaker.cpp:331-333 | the interior 1-2-1 tap `(a+2b+c+2)>>2` lies between the smallest and the largest of its inputs |
| ApplyDovi.Filter31 | DoViBaker/DoViBaker.cpp:314-315 | the left-border tap `(3a+b+2)>>2` lies between its inputs |
| ApplyDovi.Filter13 | DoViBaker/DoViBaker.cpp:350-351 | the right-border tap `(a+3b+2)>>2` lies between its inputs |
| ApplyDovi.RoundAvg | DoViBaker/DoViBaker.cpp:316 | the rounded average `(r1+r2+1)>>1` of the two filtered rows lies between them |
| ApplyDovi.MmrBlY | DoViBaker/DoViBaker.cpp:314-352 | the luma proxy of chroma position (r, c): the BL luma at (r, c) at S = 0; at S = 1 the rounded average of luma rows 2r and 2r+1, each filtered 3-1 over columns 0, 1 at the left border, 1-3 over columns 2c-1, 2c at the right border, and 1-2-1 over columns 2c-1..2c+1 in between |
| ApplyDovi.MmrWithinTaps | DoViBaker/DoViBaker.cpp:314-352 | mmrBlY lies between the smallest and the largest luma sample it reads, in each of the three column cases, so its 16-bit store never truncates |
| ApplyDovi.DoviY | DoViBaker/DoViBaker.cpp:308-312 | every luma sample is `processSampleY` of the BL and EL luma at the same coordinates |
| ApplyDovi.DoviU | DoViBaker/DoViBaker.cpp:318 | every U sample is `processSampleU` of the BL and EL U at its position, conditioned by mmrBlY of that position, with the BL U and V as context |
| ApplyDovi.DoviV | DoViBaker/DoViBaker.cpp:319 | the same for V |
| ApplyDovi.ApplyDovi | DoViBaker/DoViBaker.cpp:266-370 | given chroma width >= 2 when S = 1, the destination luma, U and V planes equal `DoviY`, `DoviU` and `DoviV`: every sample of each (S+1)x(S+1) luma block and every chroma position is written |
| ApplyDovi.ApplyDoviRow | DoViBaker/DoViBaker.cpp:305-368 | one chroma row writes its S+1 luma rows and its U and V rows completely; nothing else changes |
| ApplyDovi.MapRowInterior | DoViBaker/DoViBaker.cpp:322-340 | the interior positions S <= wuv < width-S of the row are mapped; nothing else changes |
| ApplyDovi.MapPosition | DoViBaker/DoViBaker.cpp:306-319 | one chroma position: its luma block is mapped, and U and V are mapped with the given mmrBlY; nothing else changes |
| ApplyDovi.InteriorMmr | DoViBaker/DoViBaker.cpp:329-337 | the interior luma proxy is the 1-2-1 filter at S = 1 and the raw BL luma at S = 0 |
| ApplyDovi.MmrLeftBorder | DoViBaker/DoViBaker.cpp:314-316 | the left-border proxy is `MmrBlY` at column 0 (3-1 weights on columns 0, 1) |
| ApplyDovi.MmrInterior | DoViBaker/DoViBaker.cpp:331-333 | the interior proxy at S = 1 is `MmrBlY` (1-2-1 weights on columns 2w-1, 2w, 2w+1) |
| ApplyDovi.MmrRightBorder | DoViBaker/DoViBaker.cpp:350-352 | the right-border proxy is `MmrBlY` at the last column (1-3 weights on columns 2w-1, 2w) |
| ApplyDovi.MapLumaBlock | DoViBaker/DoViBaker.cpp:308-313 | each of the (S+1)x(S+1) luma samples of the block is written once with `processSampleY`; nothing else changes |
| ApplyDovi.MapChroma | DoViBaker/DoViBaker.cpp:338-339 | U and V of one position are written with the given proxy; nothing else changes |
| QuickAndDirty.ElLumaBelow | DoViBaker/DoViBaker.cpp:455-457 | the EL luma coordinate `hDDbly >> q` of every visited BL luma pixel lies inside the EL luma plane |
| QuickAndDirty.QndImage | DoViBaker/DoViBaker.cpp:428-465 | output pixel (Y, X) is `sample2rgb(processSampleY(bl, el at (Y,X)>>q), u, v)`, where u and v are those of BL chroma cell (Y,X)>>blS: its EL chroma at that cell >> (elS+q-blS), and its raw BL luma at the cell's top-left corner |
| QuickAndDirty.QndPixel | DoViBaker/DoViBaker.cpp:445-460 | output pixel (Y, X) is `sample2rgb` of its mapped luma with the U and V of BL chroma cell (Y >> blS, X >> blS), which are mapped with the raw BL luma at the cell's top-left corner |
| QuickAndDirty.DoAllQuickAndDirty | DoViBaker/DoViBaker.cpp:372-485 | given elS+q >= blS and matching layouts, the RGB frame equals `QndImage` |
| QuickAndDirty.ElRow | DoViBaker/DoViBaker.cpp:429-464 | one EL chroma row writes exactly its 2^(elS+q) output rows |
| QuickAndDirty.ElCell | DoViBaker/DoViBaker.cpp:431-463 | one EL chroma position writes exactly its 2^(elS+q) x 2^(elS+q) output pixels with their `QndImage` values; nothing else changes |
| QuickAndDirty.ElCellRow | DoViBaker/DoViBaker.cpp:435-463 | one row of the covered BL chroma cells is written |
| QuickAndDirty.BlCell | DoViBaker/DoViBaker.cpp:437-462 | one BL chroma cell writes its (blS+1)x(blS+1) pixels with the cell's mapped chroma |
| QuickAndDirty.BlCellLuma | DoViBaker/DoViBaker.cpp:448-462 | the pixels of one BL chroma cell get their mapped luma with the given chroma; nothing else changes |
| QuickAndDirty.BlRowLuma | DoViBaker/DoViBaker.cpp:449-461 | the same for one luma row of the cell |
| QuickAndDirty.MapPixel | DoViBaker/DoViBaker.cpp:451-460 | one pixel is converted from its mapped luma and the given chroma; nothing else changes |
| Convert.RgbImage | DoViBaker/DoViBaker.cpp:507-510 | every pixel is `sample2rgb` of the luma and chroma at the same position |
| Convert.Convert2Rgb | DoViBaker/DoViBaker.cpp:487-520 | every position of the chroma grid is converted and nothing else changes; for a 4:4:4 frame of the output's size the result is `RgbImage` |
| Lut.LutChoice | DoViBaker/DoViBaker.cpp:600-609 | no LUT without thresholds; otherwise LUT i-1 for the first i from 1 whose threshold the light level does not exceed, and the last LUT when there is none |
| Lut.FirstFit | DoViBaker/DoViBaker.cpp:603-608 | the scan stops at the first index whose threshold the light level does not exceed, or at the end |
| Lut.SelectLut | DoViBaker/DoViBaker.cpp:600-609 | the loop with `break` selects `LutChoice` |
| Lut.LutChoiceInRange | DoViBaker/DoViBaker.cpp:600-609 | the LUT is skipped exactly when the list is empty; otherwise the chosen index is below the LUT count |
| Lut.LutChoiceIs | DoViBaker/DoViBaker.cpp:602-608 | LUT k is chosen exactly when threshold k+1 is the first from index 1 that the level does not exceed; the last LUT is chosen exactly when the level exceeds every threshold from index 1 on |
| Lut.FirstFitIs | DoViBaker/DoViBaker.cpp:603-608 | any index that fits, with no index before it fitting, is the scan's result |
| Lut.LutChoiceIgnoresFirst | DoViBaker/DoViBaker.cpp:603 | threshold 0 is never compared: changing it never changes the choice |
| Lut.LutChoiceMonotone | DoViBaker/DoViBaker.cpp:600-609 | a brighter frame never gets an earlier LUT, whatever the order of the thresholds |
| Lut.LutChoiceExample | DoViBaker/DoViBaker.cpp:600-609 | for thresholds 100, 400 and 800, the levels 50, 400, 401 and 900 choose LUTs 0, 0, 1 and 2 |
| GetFrame.SkipEl | DoViBaker/DoViBaker.cpp:611-615 | EL processing is skipped when there is no EL clip, the frame is not FEL, or the processor has EL processing disabled |
| GetFrame.FrameChromaSubSampled | DoViBaker/DoViBaker.cpp:635-668 | the frame applyDovi runs on stays 4:2:0 exactly when the BL is 4:2:0 and either EL is skipped or the EL is 4:2:0 too |
| GetFrame.ElMissing | DoViBaker/DoViBaker.cpp:616-619 | the frame fails with `Expecting EL clip` when it carries a full enhancement layer and there is no EL clip |
| GetFrame.ElMissingSkipsEl | DoViBaker/DoViBaker.cpp:611-619 | the missing-EL error only occurs when EL processing has been forced off; EL is processed only with an EL clip, a FEL frame, and EL processing enabled |
| GetFrame.StagedSteps | DoViBaker/DoViBaker.cpp:636-700 | the staged path upscales the EL only when EL is processed at quarter resolution, brings the EL chroma to 4:4:4 only for a 4:4:4 BL and a 4:2:0 EL, the BL chroma only for a 4:2:0 BL and a 4:4:4 EL, and the applyDovi frame's chroma only for RGB output from a 4:2:0 frame |
| GetFrame.StagedLayoutsAgree | DoViBaker/DoViBaker.cpp:635-699 | on the staged path the BL chroma, the EL chroma and the frame applyDovi writes are 4:2:0 exactly when applyDovi runs at S = 1; at most one layer's chroma is upsampled; no EL pass runs when EL is bypassed; RGB output always converts a 4:4:4 frame |
| GetFrame.MezIs444AsWritten | DoViBaker/DoViBaker.cpp:672-681 | the frame for applyDovi is allocated 4:4:4 when the BL is 4:2:0 and the EL setting is 4:4:4, and otherwise exactly when the BL is 4:4:4, whether or not EL is bypassed |
| GetFrame.MezAsWrittenDiffers | DoViBaker/DoViBaker.cpp:672-681 | the frame allocated for applyDovi has the layout applyDovi writes, except when EL is bypassed for a 4:2:0 BL and a 4:4:4 EL setting |
| GetFrame.MezAsWrittenBreaksApplyDovi | DoViBaker/DoViBaker.cpp:672-683 | in that case applyDovi<true> is handed a frame whose chroma has the luma's dimensions, which its layout rules out for any non-empty frame |
| GetFrame.ChromaUp | DoViBaker/DoViBaker.cpp:253-264 | upsampleChroma on values doubles both chroma dimensions and keeps the luma plane unchanged |
| GetFrame.ElUp | DoViBaker/DoViBaker.cpp:238-251 | upscaleEl on values doubles every plane's dimensions |
| GetFrame.ElAtBase | DoViBaker/DoViBaker.cpp:637-656 | the EL frame applyDovi reads has the BL luma's size, with its chroma doubled when the EL is quarter resolution |
| GetFrame.StagedLayers | DoViBaker/DoViBaker.cpp:632-670 | the frames handed to applyDovi have the shapes applyDovi<S> needs, with S the frame's chroma subsampling |
| GetFrame.Mapped | DoViBaker/DoViBaker.cpp:266-370 | applyDovi<S> on values: a frame of (S+1) luma samples per chroma sample per axis whose planes are `DoviY`, `DoviU` and `DoviV` of the frames it reads |
| GetFrame.StagedMez | DoViBaker/DoViBaker.cpp:632-685 | the staged YUV frame has the BL luma's size, and chroma of the BL chroma's size when it stays 4:2:0 or of the luma's size otherwise |
| GetFrame.StagedRgb | DoViBaker/DoViBaker.cpp:694-701 | the staged RGB image has the BL luma's height; it is the per-pixel conversion of the staged frame's luma with its chroma, upsampled first when that frame is 4:2:0 |
| GetFrame.ElToBase | DoViBaker/DoViBaker.cpp:637-656 | a quarter-resolution EL frame is upscaled into a new frame of three fresh, distinct planes; otherwise the EL frame itself is returned; in both cases the result equals `ElAtBase` |
| GetFrame.ChromaTo444 | DoViBaker/DoViBaker.cpp:657-667 | a new 4:4:4 frame whose chroma is the 4:2:0 source's chroma doubled |
| GetFrame.PrepareLayers | DoViBaker/DoViBaker.cpp:632-670 | the frames handed to applyDovi are `StagedLayers`, and frameChromaSubSampled is the BL's subsampling unless one layer was brought to 4:4:4; when EL is bypassed the BL frame stands in for the EL |
| GetFrame.MapInto | DoViBaker/DoViBaker.cpp:672-685 | applyDovi<S> into a new frame allocated in the layout it writes fills the whole frame with `Mapped` |
| GetFrame.StagedPath | DoViBaker/DoViBaker.cpp:631-685 | the frame from applyDovi is `StagedMez`, in the layout that matches frameChromaSubSampled |
| GetFrame.MezToRgb | DoViBaker/DoViBaker.cpp:694-701 | a 4:2:0 frame has its chroma upsampled first; the RGB frame is the conversion of the resulting 4:4:4 frame |
| GetFrame.ElClip | DoViBaker/DoViBaker.cpp:581 | the EL frame is the EL clip's frame when there is an EL clip, and the BL frame otherwise |
| GetFrame.QndFrame | DoViBaker/DoViBaker.cpp:621-630 | the fast path fills a new RGB frame of the BL luma's size with `QndImage` |
| GetFrame.StagedFrame | DoViBaker/DoViBaker.cpp:631-701 | YUV output returns the staged frame as is; RGB output returns its conversion, `StagedRgb`, carrying the frame's LUT |
| GetFrame.GetFrame | DoViBaker/DoViBaker.cpp:577-707 | no initialisation gives no output, no LUT and no EL change; otherwise the LUT is `LutChoice`, EL is forced off exactly when `SkipEl` holds, a FEL frame without an EL clip fails, and the output is the fast path's image or the staged path's YUV or RGB frame |
| GetFrame.FastMatchesStaged444 | DoViBaker/DoViBaker.cpp:621-701 | with both layers 4:4:4, a full-resolution EL, and EL processed, the fast path and the staged path produce the same RGB image |

## Left out

- The constructor (`DoViBaker.cpp:11-55`) is not part of this model: the 16-bit check, the processor's creation, cube-file parsing and host errors are I/O and foreign calls. The filter's settings arrive as a `Config` value, with the LUTs named by their index and only their thresholds kept.
- `applyLut` (`DoViBaker.cpp:522-575`) is not part of this model: it is floating point and trilinear interpolation in an external library. An RGB output carries the index of the LUT that would be applied.
- Frame allocation and frame-property tagging in `GetFrame` (`DoViBaker.cpp:583-585, 592-598, 687-691`) are host plumbing. A new frame is `NewFrame` or a new array, and properties are not modelled.
- The `DoViProcessor` is not part of this model: its reshaping curves, NLQ, generator weights and colour matrix. Its services are unknown functions in `Processor`. Frame initialisation and the FEL and EL-disabled flags arrive as a `FrameInfo` value.
- `forceDisableElProcessing` changes the processor's internal state, which is not modelled. `GetFrame` reports in `elForcedOff` that it forces EL off, and the `Processor` it is given stands for the services in that state.
- Concurrency is not modelled. The shared `current_frame_lut` field becomes the returned LUT index.
- Commented-out code, the destructor and the template instantiations are not modelled.
- Pitches and address stepping are not modelled: planes are indexed arrays. The three RGB output planes are one `array2<Rgb>`.
- Throwing `Expecting EL clip` is modelled as the output `Failed`.
- The upsampling generators are assumed to return 16-bit samples.
- GetFrame.GetFrame: when initialisation fails the source returns the unfilled RGB frame it has allocated (a null frame for YUV output). The model returns `Blank`, which carries no pixels.
- GetFrame.GetFrame: the fast path with YUV output hands a null frame to doAllQuickAndDirty. That combination is excluded by requiring `!outYuv` whenever the fast path is reached.
- GetFrame.GetFrame: the source reads the frames without checking their sizes, so the model requires the layouts each path silently relies on (`FramesFit`). For the fast path this includes `elS + q >= blS`; without it the arrays of row addresses overrun (`DoViBaker.cpp:387-388, 448-453`). On the fast path without an EL clip, the BL frame doubles as the EL frame, and it must then also fit the configured EL layout.
- Upsample.UpsampleHorz: requires srcWidth >= nD + pD: below that, the border loops' `copy_n` reads past the end or before the start of the row (`DoViBaker.cpp:129, 138`) and the left and right column ranges overlap; the upscaling passes therefore need an EL luma width of at least 4 and chroma widths of at least 3.
- ApplyDovi.ApplyDovi: at S = 1 it requires a chroma width of at least 2 when there is a chroma row, because the right border reads column 2w-1.
- Convert.Convert2Rgb: the whole-image equality is stated only when luma, chroma and output share one size, which is the only way GetFrame calls it. For other sizes, only the converted region and the unchanged rest are stated.
- Lut.LutChoice: the thresholds are taken as given; the model neither requires nor uses ascending order. The rule follows the code: the scan starts at index 1, so LUT 0 is chosen only when the level does not exceed threshold 1.

## Findings

| source | as written | input that shows it | evidently intended | confidence | as-written member | corrected member |
|---|---|---|---|---|---|---|
| DoViBaker/DoViBaker.cpp:672-683 | The frame for applyDovi is allocated 4:4:4 whenever the BL is 4:2:0 and the EL setting is 4:4:4. If EL is bypassed, frameChromaSubSampled stays true and applyDovi<true> fills only a quarter of each chroma plane; for RGB output, upsampleChroma then doubles a full-size chroma plane into an intermediate plane a quarter of the size it writes. | a 4:2:0 BL with elChromaSubSampled false, on a frame whose EL is bypassed (no EL clip, a non-FEL frame, or EL processing disabled) | the frame is 4:4:4 exactly when frameChromaSubSampled is false, so applyDovi<S> writes all of it | medium; not executed | GetFrame.MezIs444AsWritten, GetFrame.MezAsWrittenBreaksApplyDovi | GetFrame.MapInto |
