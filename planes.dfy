// Shared vocabulary of the frame reconstruction model: 16-bit samples, planes
// (as arrays that the passes write in place, and as values that the
// specifications speak about), frames, and the per-sample services of the
// reshaping processor, which the passes call but whose internals are not
// part of this model.
module Planes {

  /** One sample of a 16-bit plane. */
  type Sample = x: int | 0 <= x < 0x1_0000

  /** The value of a plane: a sequence of rows. */
  type Plane = seq<seq<Sample>>

  /** One output pixel of an RGB frame; the three RGB planes are modelled as one grid of triples. */
  datatype Rgb = Rgb(r: Sample, g: Sample, b: Sample)

  /** The value of an RGB frame: a sequence of rows of pixels. */
  type Image = seq<seq<Rgb>>

  /** The current contents of an RGB frame, as a value. */
  ghost function SnapRgb(a: array2<Rgb>): (m: Image)
    reads a
    ensures |m| == a.Length0 && forall y :: 0 <= y < a.Length0 ==> |m[y]| == a.Length1
    ensures forall y, x :: 0 <= y < a.Length0 && 0 <= x < a.Length1 ==> m[y][x] == a[y, x]
  {
    seq(a.Length0, y requires 0 <= y < a.Length0 reads a =>
      seq(a.Length1, x requires 0 <= x < a.Length1 reads a => a[y, x]))
  }

  /** An image value is determined by its dimensions and its pixels. */
  lemma ImageExt(m: Image, n: Image, h: nat, w: nat)
    requires |m| == h && |n| == h
    requires forall y :: 0 <= y < h ==> |m[y]| == w && |n[y]| == w
    requires forall y, x :: 0 <= y < h && 0 <= x < w ==> m[y][x] == n[y][x]
    ensures m == n
  {
    forall y | 0 <= y < h
      ensures m[y] == n[y]
    {
    }
  }

  /** A planar YUV frame; pitch and address stepping are abstracted into array indices. */
  datatype Yuv = Yuv(y: array2<Sample>, u: array2<Sample>, v: array2<Sample>)

  /** The value of a planar YUV frame. */
  datatype Frame = Frame(y: Plane, u: Plane, v: Plane)

  /**
   * The per-sample services of the reshaping processor used by the pixel
   * passes. Each is a pure function of its arguments for the current frame.
   */
  datatype Processor = Processor(
    processSampleY: (Sample, Sample) -> Sample,
    processSampleU: (Sample, Sample, Sample, Sample, Sample) -> Sample,
    processSampleV: (Sample, Sample, Sample, Sample, Sample) -> Sample,
    sample2rgb: (Sample, Sample, Sample) -> Rgb,
    upsampleLumaEven: (seq<Sample>, nat) -> Sample,
    upsampleLumaOdd: (seq<Sample>, nat) -> Sample,
    upsampleChromaEven: (seq<Sample>, nat) -> Sample,
    upsampleChromaOdd: (seq<Sample>, nat) -> Sample)

  /** `p` has `h` rows of `w` samples each. */
  predicate IsRect(p: Plane, h: nat, w: nat)
  {
    |p| == h && forall y :: 0 <= y < h ==> |p[y]| == w
  }

  /** Every sample of `p` equals `k`. */
  predicate IsConstant(p: Plane, k: Sample)
  {
    forall y, x :: 0 <= y < |p| && 0 <= x < |p[y]| ==> p[y][x] == k
  }

  /** The current contents of an array plane, as a value. */
  ghost function Snap(a: array2<Sample>): (p: Plane)
    reads a
    ensures IsRect(p, a.Length0, a.Length1)
    ensures forall y, x :: 0 <= y < a.Length0 && 0 <= x < a.Length1 ==> p[y][x] == a[y, x]
  {
    seq(a.Length0, y requires 0 <= y < a.Length0 reads a =>
      seq(a.Length1, x requires 0 <= x < a.Length1 reads a => a[y, x]))
  }

  /** A plane value is determined by its dimensions and its samples. */
  lemma PlaneExt(p: Plane, q: Plane, h: nat, w: nat)
    requires IsRect(p, h, w) && IsRect(q, h, w)
    requires forall y, x :: 0 <= y < h && 0 <= x < w ==> p[y][x] == q[y][x]
    ensures p == q
  {
    forall y | 0 <= y < h
      ensures p[y] == q[y]
    {
    }
  }

  /** The current contents of a frame, as a value. */
  ghost function SnapYuv(f: Yuv): (v: Frame)
    reads f.y, f.u, f.v
    ensures v == Frame(Snap(f.y), Snap(f.u), Snap(f.v))
  {
    Frame(Snap(f.y), Snap(f.u), Snap(f.v))
  }

  /** The dimensions of the three planes of a frame value. */
  predicate Shaped(f: Frame, h: nat, w: nat, hc: nat, wc: nat)
  {
    IsRect(f.y, h, w) && IsRect(f.u, hc, wc) && IsRect(f.v, hc, wc)
  }

  /** The dimensions of the three planes of a frame. */
  predicate HasShape(f: Yuv, h: nat, w: nat, hc: nat, wc: nat)
  {
    f.y.Length0 == h && f.y.Length1 == w &&
    f.u.Length0 == hc && f.u.Length1 == wc &&
    f.v.Length0 == hc && f.v.Length1 == wc
  }

  /** The three planes of a frame are three different arrays. */
  predicate Distinct(f: Yuv)
  {
    f.y != f.u && f.y != f.v && f.u != f.v
  }

  /** No plane of `f` is the array `a`. */
  predicate Apart(f: Yuv, a: array2<Sample>)
  {
    f.y != a && f.u != a && f.v != a
  }

  /** The planes of a frame. */
  function PlanesOf(f: Yuv): set<array2<Sample>>
  {
    {f.y, f.u, f.v}
  }

  /** A newly allocated frame with the given plane dimensions (the host's NewVideoFrame). */
  method NewFrame(h: nat, w: nat, hc: nat, wc: nat) returns (f: Yuv)
    ensures HasShape(f, h, w, hc, wc) && Distinct(f)
    ensures fresh(f.y) && fresh(f.u) && fresh(f.v)
  {
    var y := new Sample[h, w];
    var u := new Sample[hc, wc];
    var v := new Sample[hc, wc];
    f := Yuv(y, u, v);
  }

  /** `n << S` for a subsampling shift S of 0 or 1: the luma extent under `n` chroma samples. */
  function Up(S: nat, n: int): int
    requires S <= 1
  {
    if S == 1 then 2 * n else n
  }

  /** `n << s` for the shift amounts the passes use (at most two doublings). */
  function Shl(n: nat, s: nat): nat
    requires s <= 2
  {
    if s == 0 then n else if s == 1 then 2 * n else 4 * n
  }

  /** `n >> s` for the shift amounts the passes use. */
  function Shr(n: nat, s: nat): nat
    requires s <= 2
  {
    if s == 0 then n else if s == 1 then n / 2 else n / 4
  }

  /** The samples `Shl(n, s) .. Shl(n, s) + 2^s - 1` are exactly those that shift back to `n`. */
  lemma ShrOfBlock(n: nat, d: nat, s: nat)
    requires s <= 2 && d < Pow2(s)
    ensures Shr(Shl(n, s) + d, s) == n
  {
  }

  /** `r >> s == n` exactly when `r` lies in the block of 2^s samples starting at `n << s`. */
  lemma ShrIsBlock(r: nat, n: nat, s: nat)
    requires s <= 2
    ensures Shr(r, s) == n <==> Shl(n, s) <= r < Shl(n, s) + Pow2(s)
  {
  }

  /** Shifting left twice is shifting left by the sum. */
  lemma ShlShl(n: nat, a: nat, b: nat)
    requires a + b <= 2
    ensures Shl(Shl(n, a), b) == Shl(n, a + b)
    ensures Shl(Shl(n, a) + Pow2(a), b) == Shl(n + 1, a + b)
  {
  }

  /** Below `n << s` is exactly what shifts below `n`. */
  lemma ShrBelow(y: nat, n: nat, s: nat)
    requires s <= 2
    ensures y < Shl(n, s) <==> Shr(y, s) < n
  {
  }

  /** 2 to the power `s`, for the shift amounts the passes use (at most two doublings). */
  function Pow2(s: nat): (r: nat)
    requires s <= 2
    ensures r >= 1
  {
    if s == 0 then 1 else if s == 1 then 2 else 4
  }
}
