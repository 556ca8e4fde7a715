/**
 * The classifier object: it proposes sign regions in a camera frame, packs
 * their gradient descriptors into a sample matrix, loads the labelled
 * training set, keeps the label predicted for the frame, and draws the
 * result. Between calls it remembers the boxes proposed since the last
 * drawing (`boxes`) and the last predicted label (`trafficSign`).
 *
 * Pixel work is opaque here: the detector's boxes, the descriptor
 * computation, the directory listings and the support-vector predictions
 * are parameters.
 */
module SignClassifier {
  import opened Images
  import opened RegionFilter
  import opened TrainingSet
  import opened SignLabels

  /** A descriptor computation: one fixed-length feature vector per patch. */
  type Descriptor = Patch -> seq<real>

  /** The patches cut from frame `img` at the given boxes, in the same order. */
  function Detections(img: nat, kept: seq<Box>): seq<Patch>
  {
    seq(|kept|, k requires 0 <= k < |kept| => Resized(Crop(img, kept[k])))
  }

  /** Every label the training set assigns, for any directory sizes, has a caption. */
  lemma TrainedLabelsHaveText(n1: nat, n2: nat, n3: nat)
    ensures forall v :: v in TrainingLabels(n1, n2, n3) ==> SignText(v as real).Some?
  {
  }

  /** Text drawn above a box, anchored 5 pixels above its top-left corner. */
  datatype Caption = Caption(text: string, x: int, y: int)

  /** What the overlay draws for one box: its rectangle and possibly a caption. */
  datatype Annotation = Annotation(rect: Box, caption: Option<Caption>)

  /** The annotation drawn for box `b` when the stored label is `sign`. */
  function Annotate(b: Box, sign: real): (a: Annotation)
    ensures a.rect == b
    ensures a.caption.Some? <==> IsSignLabel(sign)
    ensures a.caption.Some? ==>
      Some(a.caption.value.text) == SignText(sign) && a.caption.value.x == b.x && a.caption.value.y == b.y - 5
  {
    match SignText(sign)
    case Some(text) => Annotation(b, Some(Caption(text, b.x, b.y - 5)))
    case None => Annotation(b, None)
  }

  class Classifier {
    /** The boxes kept since the last drawing, in the order they were found. */
    var boxes: seq<Box>
    /** The label most recently predicted. */
    var trafficSign: real

    /** Every stored box passed the ratio filter. */
    ghost predicate Valid()
      reads this
    {
      forall b :: b in boxes ==> AspectOk(b)
    }

    constructor ()
      ensures boxes == [] && Valid()
    {
      boxes := [];
    }

    /**
     * Keeps the detector boxes `mserBoxes` of frame `img` that pass the ratio
     * filter: each one yields a resized patch in `detections` and is appended to
     * `boxes`, both in detector order, and `area` is overwritten with its area.
     */
    method MserFeatures(img: nat, mserBoxes: seq<Box>, area0: int) returns (detections: seq<Patch>, area: int)
      modifies this
      ensures boxes == old(boxes) + Kept(mserBoxes)
      ensures detections == Detections(img, Kept(mserBoxes))
      ensures |detections| == |boxes| - |old(boxes)|
      ensures forall k :: 0 <= k < |detections| ==> detections[k].source == Crop(img, boxes[|old(boxes)| + k])
      ensures area == AreaAfter(mserBoxes, area0)
      ensures trafficSign == old(trafficSign)
      ensures old(Valid()) ==> Valid()
    {
      detections, area := [], area0;
      for n := 0 to |mserBoxes|
        invariant boxes == old(boxes) + Kept(mserBoxes[..n])
        invariant detections == Detections(img, Kept(mserBoxes[..n]))
        invariant area == AreaAfter(mserBoxes[..n], area0)
        invariant trafficSign == old(trafficSign)
      {
        var i := mserBoxes[n];
        assert mserBoxes[..n + 1] == mserBoxes[..n] + [i];
        KeptSnoc(mserBoxes[..n], i);
        assert mserBoxes[..n + 1][..n] == mserBoxes[..n];
        if AspectOk(i) {
          var detection := Resized(Crop(img, i));
          area := Area(i);
          detections := detections + [detection];
          boxes := boxes + [i];
        }
      }
      assert mserBoxes[..|mserBoxes|] == mserBoxes;
      KeptSound(mserBoxes);
    }

    /**
     * Computes the descriptor of every patch and packs them into a matrix with
     * one row per patch and as many columns as the first descriptor has entries.
     */
    method HogFeatures(hog: Descriptor, imgs: seq<Patch>) returns (signMat: array2<real>)
      requires |imgs| > 0
      requires forall i :: 0 <= i < |imgs| ==> |hog(imgs[0])| <= |hog(imgs[i])|
      ensures fresh(signMat)
      ensures signMat.Length0 == |imgs| && signMat.Length1 == |hog(imgs[0])|
      ensures forall i, j :: 0 <= i < signMat.Length0 && 0 <= j < signMat.Length1 ==>
        signMat[i, j] == hog(imgs[i])[j]
    {
      var descriptors: seq<seq<real>> := [];
      for k := 0 to |imgs|
        invariant |descriptors| == k
        invariant forall i :: 0 <= i < k ==> descriptors[i] == hog(imgs[i])
      {
        descriptors := descriptors + [hog(imgs[k])];
      }

      signMat := new real[|descriptors|, |descriptors[0]|];
      var i := 0;
      while i < |descriptors|
        invariant 0 <= i <= |descriptors|
        invariant forall r, c :: 0 <= r < i && 0 <= c < signMat.Length1 ==> signMat[r, c] == descriptors[r][c]
      {
        var j := 0;
        while j < |descriptors[0]|
          invariant 0 <= j <= |descriptors[0]|
          invariant forall r, c :: 0 <= r < i && 0 <= c < signMat.Length1 ==> signMat[r, c] == descriptors[r][c]
          invariant forall c :: 0 <= c < j ==> signMat[i, c] == descriptors[i][c]
        {
          signMat[i, j] := descriptors[i][j];
          j := j + 1;
        }
        i := i + 1;
      }
    }

    /**
     * Appends the images listed in the three category directories to `trainImgs`,
     * and one label per image to `trainLabels`: 1 for the first directory, 2 for
     * the second, 3 for the third. `listing` stands for the directory listing.
     */
    method LoadTrainingImgs(listing: string -> seq<string>, trainImgs0: seq<Patch>, trainLabels0: seq<int>)
      returns (trainImgs: seq<Patch>, trainLabels: seq<int>)
      ensures trainImgs == trainImgs0
        + TrainingImages(listing(ForwardDir), listing(TurnDir), listing(StopDir))
      ensures trainLabels == trainLabels0
        + TrainingLabels(|listing(ForwardDir)|, |listing(TurnDir)|, |listing(StopDir)|)
      ensures |trainImgs| - |trainImgs0| == |trainLabels| - |trainLabels0|
    {
      trainImgs, trainLabels := trainImgs0, trainLabels0;

      var filenames := listing(ForwardDir);
      for k := 0 to |filenames|
        invariant trainImgs == trainImgs0 + LoadedImages(filenames[..k])
        invariant trainLabels == trainLabels0 + Repeat(1, k)
      {
        trainImgs := trainImgs + [Resized(ImageFile(filenames[k]))];
        trainLabels := trainLabels + [1];
      }
      assert filenames[..|filenames|] == filenames;
      ghost var imgs1, labels1 := trainImgs, trainLabels;

      var filenames2 := listing(TurnDir);
      for k := 0 to |filenames2|
        invariant trainImgs == imgs1 + LoadedImages(filenames2[..k])
        invariant trainLabels == labels1 + Repeat(2, k)
      {
        trainImgs := trainImgs + [Resized(ImageFile(filenames2[k]))];
        trainLabels := trainLabels + [2];
      }
      assert filenames2[..|filenames2|] == filenames2;
      ghost var imgs2, labels2 := trainImgs, trainLabels;

      var filenames3 := listing(StopDir);
      for k := 0 to |filenames3|
        invariant trainImgs == imgs2 + LoadedImages(filenames3[..k])
        invariant trainLabels == labels2 + Repeat(3, k)
      {
        trainImgs := trainImgs + [Resized(ImageFile(filenames3[k]))];
        trainLabels := trainLabels + [3];
      }
      assert filenames3[..|filenames3|] == filenames3;
    }

    /**
     * The training stage: loads the labelled images, packs their descriptors into
     * the training matrix and hands both to the support-vector machine (not
     * modelled). Returns 1.
     */
    method TrainStage(hog: Descriptor, listing: string -> seq<string>, trainImgs0: seq<Patch>, trainLabels0: seq<int>)
      returns (r: int, trainImgs: seq<Patch>, trainLabels: seq<int>, trainHOG: array2<real>)
      requires var all := trainImgs0 + TrainingImages(listing(ForwardDir), listing(TurnDir), listing(StopDir));
        |all| > 0 && forall i :: 0 <= i < |all| ==> |hog(all[0])| <= |hog(all[i])|
      ensures r == 1
      ensures trainImgs == trainImgs0
        + TrainingImages(listing(ForwardDir), listing(TurnDir), listing(StopDir))
      ensures trainLabels == trainLabels0
        + TrainingLabels(|listing(ForwardDir)|, |listing(TurnDir)|, |listing(StopDir)|)
      ensures fresh(trainHOG)
      ensures trainHOG.Length0 == |trainImgs| && trainHOG.Length1 == |hog(trainImgs[0])|
      ensures |trainImgs0| == |trainLabels0| ==> trainHOG.Length0 == |trainLabels|
      ensures forall i, j :: 0 <= i < trainHOG.Length0 && 0 <= j < trainHOG.Length1 ==>
        trainHOG[i, j] == hog(trainImgs[i])[j]
    {
      trainImgs, trainLabels := LoadTrainingImgs(listing, trainImgs0, trainLabels0);
      trainHOG := HogFeatures(hog, trainImgs);
      r := 1;
    }

    /**
     * Stores and returns the label predicted for the first row of the sample
     * matrix; the predictions for the other rows are ignored.
     */
    method SvmTesting(answer: seq<real>) returns (r: real)
      requires |answer| > 0
      modifies this
      ensures r == answer[0] && trafficSign == answer[0]
      ensures boxes == old(boxes)
    {
      // The loop leaves through `return` in its first iteration.
      for i := 0 to |answer|
        invariant i == 0
      {
        trafficSign := answer[i];
        return trafficSign;
      }
      assert false;
    }

    /**
     * Draws every stored box with the caption of the one stored label, then
     * forgets the boxes. `drawn` is the overlay, box by box. Returns 1.
     */
    method Visualization() returns (r: int, drawn: seq<Annotation>)
      modifies this
      ensures r == 1
      ensures boxes == [] && trafficSign == old(trafficSign) && Valid()
      ensures |drawn| == |old(boxes)|
      ensures forall k :: 0 <= k < |drawn| ==> drawn[k] == Annotate(old(boxes)[k], trafficSign)
      ensures old(Valid()) ==> forall k :: 0 <= k < |drawn| ==> AspectOk(drawn[k].rect)
    {
      drawn := [];
      for n := 0 to |boxes|
        invariant boxes == old(boxes) && trafficSign == old(trafficSign)
        invariant |drawn| == n
        invariant forall k :: 0 <= k < n ==> drawn[k] == Annotate(boxes[k], trafficSign)
      {
        var i := boxes[n];
        var caption: Option<Caption> := None;
        if trafficSign == 1.0 {
          caption := Some(Caption("Forward", i.x, i.y - 5));
        }
        if trafficSign == 2.0 {
          caption := Some(Caption("Turn", i.x, i.y - 5));
        }
        if trafficSign == 3.0 {
          caption := Some(Caption("Stop", i.x, i.y - 5));
        }
        drawn := drawn + [Annotation(i, caption)];
      }
      boxes := [];
      r := 1;
    }
  }
}
