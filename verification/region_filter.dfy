/**
 * The geometric filter applied to the boxes the region detector proposes:
 * a box is a sign candidate when its height/width ratio lies strictly
 * between 0.8 and 1.2. This module defines the filter on a whole detector
 * output (which boxes survive, and what the `area` out-parameter ends up
 * holding) and proves that it is sound, complete and order-preserving.
 */
module RegionFilter {
  import opened Images

  /**
   * The ratio test `0.8 < height / width < 1.2` in integer form. For image-sized
   * boxes the floating-point test agrees with it (see AspectOkIsRatioTest); a box
   * of width 0 fails both (the quotient is infinite or not a number).
   */
  predicate AspectOk(b: Box)
  {
    4 * b.width < 5 * b.height && 5 * b.height < 6 * b.width
  }

  /** The integer form is exactly the ratio test, computed without rounding. */
  lemma AspectOkIsRatioTest(b: Box)
    requires b.width > 0
    ensures AspectOk(b) <==> 0.8 < (b.height as real) / (b.width as real) < 1.2
  {
    var w, h := b.width as real, b.height as real;
    QuotientBounds(0.8, h, w);
    QuotientBounds(1.2, h, w);
  }

  /** Comparing a quotient with a constant, by multiplying out the positive divisor. */
  lemma QuotientBounds(c: real, h: real, w: real)
    requires w > 0.0
    ensures c < h / w <==> c * w < h
    ensures h / w < c <==> h < c * w
  {
  }

  /** A box of zero width never passes. */
  lemma ZeroWidthRejected(b: Box)
    requires b.width == 0
    ensures !AspectOk(b)
  {
  }

  /** The boxes of a detector output that pass the ratio test, in detector order. */
  function Kept(bs: seq<Box>): (r: seq<Box>)
    ensures |r| <= |bs|
    decreases |bs|
  {
    if bs == [] then []
    else
      var last := bs[|bs| - 1];
      var init := Kept(bs[..|bs| - 1]);
      if AspectOk(last) then init + [last] else init
  }

  /** The positions in the detector output of the boxes that pass, in increasing order. */
  function KeptIndices(bs: seq<Box>): (r: seq<nat>)
    decreases |bs|
  {
    if bs == [] then []
    else
      var init := KeptIndices(bs[..|bs| - 1]);
      if AspectOk(bs[|bs| - 1]) then init + [|bs| - 1] else init
  }

  /** Every kept box passes the ratio test. */
  lemma {:induction false} KeptSound(bs: seq<Box>)
    ensures forall b :: b in Kept(bs) ==> AspectOk(b)
  {
    if bs != [] {
      KeptSound(bs[..|bs| - 1]);
    }
  }

  /** Every box of the detector output that passes the ratio test is kept. */
  lemma {:induction false} KeptComplete(bs: seq<Box>)
    ensures forall i :: 0 <= i < |bs| && AspectOk(bs[i]) ==> bs[i] in Kept(bs)
  {
    if bs != [] {
      var init := bs[..|bs| - 1];
      KeptComplete(init);
      forall i | 0 <= i < |bs| && AspectOk(bs[i]) ensures bs[i] in Kept(bs) {
        if i < |bs| - 1 {
          assert bs[i] == init[i];
        }
      }
    }
  }

  /**
   * The kept boxes are exactly the passing boxes of the detector output, taken in
   * detector order: the k-th kept box is the box at the k-th passing position.
   */
  lemma {:induction false} KeptInDetectorOrder(bs: seq<Box>)
    ensures |KeptIndices(bs)| == |Kept(bs)|
    ensures forall k :: 0 <= k < |Kept(bs)| ==>
      KeptIndices(bs)[k] < |bs| && Kept(bs)[k] == bs[KeptIndices(bs)[k]]
    ensures forall k, l :: 0 <= k < l < |KeptIndices(bs)| ==> KeptIndices(bs)[k] < KeptIndices(bs)[l]
    ensures forall i :: 0 <= i < |bs| ==> (i in KeptIndices(bs) <==> AspectOk(bs[i]))
  {
    if bs != [] {
      var init := bs[..|bs| - 1];
      KeptInDetectorOrder(init);
      forall k | 0 <= k < |Kept(init)|
        ensures bs[KeptIndices(init)[k]] == init[KeptIndices(init)[k]]
      {
      }
    }
  }

  /** Filtering a longer detector output extends the previous result. */
  lemma KeptSnoc(bs: seq<Box>, b: Box)
    ensures Kept(bs + [b]) == if AspectOk(b) then Kept(bs) + [b] else Kept(bs)
  {
  }

  /**
   * The value of the `area` out-parameter after the detector output `bs` has
   * been processed, when it held `area` before.
   */
  function AreaAfter(bs: seq<Box>, area: int): int
    decreases |bs|
  {
    if bs == [] then area
    else if AspectOk(bs[|bs| - 1]) then Area(bs[|bs| - 1])
    else AreaAfter(bs[..|bs| - 1], area)
  }

  /** `area` ends up as the area of the last kept box, or unchanged when nothing is kept. */
  lemma {:induction false} AreaAfterIsLastKept(bs: seq<Box>, area: int)
    ensures AreaAfter(bs, area) == if Kept(bs) == [] then area else Area(Kept(bs)[|Kept(bs)| - 1])
  {
    if bs != [] && !AspectOk(bs[|bs| - 1]) {
      AreaAfterIsLastKept(bs[..|bs| - 1], area);
    }
  }
}
