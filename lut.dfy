// Per-frame choice of the 3D LUT (DoViBaker.cpp GetFrame, the block that sets
// current_frame_lut). Each LUT comes with a content-light-level threshold;
// only the thresholds matter for the choice, so the LUTs are named by their
// index in the list.
module Lut {

  datatype Option<T> = None | Some(value: T)

  /** The first index from `from` on whose threshold is at least `cll`, or |t| if there is none. */
  function FirstFit(t: seq<int>, cll: int, from: nat): (i: nat)
    requires from <= |t|
    ensures from <= i <= |t|
    ensures i < |t| ==> cll <= t[i]
    ensures forall j :: from <= j < i ==> cll > t[j]
    decreases |t| - from
  {
    if from == |t| then from
    else if cll <= t[from] then from
    else FirstFit(t, cll, from + 1)
  }

  /**
   * The LUT used for a frame whose maximum content light level is `cll`:
   * none for an empty list; otherwise the one before the first LUT from
   * index 1 on whose threshold `cll` does not exceed, and the last LUT when
   * `cll` exceeds them all.
   */
  function LutChoice(t: seq<int>, cll: int): Option<nat>
  {
    if |t| == 0 then None
    else
      var i := FirstFit(t, cll, 1);
      if i < |t| then Some(i - 1) else Some(|t| - 1)
  }

  /**
   * DoViBaker.cpp GetFrame, LUT selection: the last LUT is the default, and
   * the scan from index 1 stops at the first threshold that `maxCll` does not
   * exceed, taking the LUT before it.
   */
  method SelectLut(thresholds: seq<int>, maxCll: int) returns (sel: Option<nat>)
    ensures sel == LutChoice(thresholds, maxCll)
  {
    var skipLut := |thresholds| == 0;
    if skipLut {
      return None;
    }
    var current := |thresholds| - 1;
    var i := 1;
    while i < |thresholds|
      invariant 1 <= i <= |thresholds|
      invariant current == |thresholds| - 1
      invariant FirstFit(thresholds, maxCll, 1) == FirstFit(thresholds, maxCll, i)
    {
      if maxCll <= thresholds[i] {
        current := i - 1;
        break;
      }
      i := i + 1;
    }
    sel := Some(current);
  }

  /** An empty list skips the LUT; otherwise the chosen index is a valid one. */
  lemma LutChoiceInRange(t: seq<int>, cll: int)
    ensures LutChoice(t, cll).None? <==> |t| == 0
    ensures LutChoice(t, cll).Some? ==> LutChoice(t, cll).value < |t|
  {
  }

  /**
   * LUT k (before the last) is chosen exactly when threshold k+1 is the first
   * from index 1 that `cll` does not exceed; the last LUT exactly when `cll`
   * exceeds every threshold from index 1 on.
   */
  lemma LutChoiceIs(t: seq<int>, cll: int, k: nat)
    requires |t| > 0
    ensures k + 1 < |t| ==>
      (LutChoice(t, cll) == Some(k) <==> cll <= t[k + 1] && forall j :: 1 <= j <= k ==> cll > t[j])
    ensures k + 1 == |t| ==>
      (LutChoice(t, cll) == Some(k) <==> forall j :: 1 <= j < |t| ==> cll > t[j])
  {
    var i := FirstFit(t, cll, 1);
    if k + 1 < |t| && cll <= t[k + 1] && forall j :: 1 <= j <= k ==> cll > t[j] {
      FirstFitIs(t, cll, 1, k + 1);
    }
    if k + 1 == |t| && forall j :: 1 <= j < |t| ==> cll > t[j] {
      FirstFitIs(t, cll, 1, |t|);
    }
  }

  /** FirstFit is the first index that fits: any index that fits with none fitting before it is FirstFit. */
  lemma {:induction false} FirstFitIs(t: seq<int>, cll: int, from: nat, i: nat)
    requires from <= i <= |t|
    requires i < |t| ==> cll <= t[i]
    requires forall j :: from <= j < i ==> cll > t[j]
    ensures FirstFit(t, cll, from) == i
    decreases i - from
  {
    if from < i {
      FirstFitIs(t, cll, from + 1, i);
    }
  }

  /** The threshold of the first LUT is never compared: changing it never changes the choice. */
  lemma {:induction false} LutChoiceIgnoresFirst(t: seq<int>, cll: int, x: int)
    requires |t| > 0
    ensures LutChoice(t[0 := x], cll) == LutChoice(t, cll)
  {
    var i := FirstFit(t, cll, 1);
    FirstFitIs(t[0 := x], cll, 1, i);
  }

  /** A brighter frame never gets an earlier LUT, whatever the order of the thresholds. */
  lemma LutChoiceMonotone(t: seq<int>, c1: int, c2: int)
    requires |t| > 0 && c1 <= c2
    ensures LutChoice(t, c1).value <= LutChoice(t, c2).value
  {
  }

  /** LUTs with thresholds 100, 400 and 800 are chosen as 0, 0, 1 and 2 for light levels 50, 400, 401 and 900. */
  lemma LutChoiceExample()
    ensures LutChoice([100, 400, 800], 50) == Some(0)
    ensures LutChoice([100, 400, 800], 400) == Some(0)
    ensures LutChoice([100, 400, 800], 401) == Some(1)
    ensures LutChoice([100, 400, 800], 900) == Some(2)
  {
    FirstFitIs([100, 400, 800], 50, 1, 1);
    FirstFitIs([100, 400, 800], 400, 1, 1);
    FirstFitIs([100, 400, 800], 401, 1, 2);
    FirstFitIs([100, 400, 800], 900, 1, 3);
  }
}
