/**
 * The labelled training set the classifier builds before training: the images
 * of three category directories, each resized to the patch size, paired by
 * position with the category label 1 (forward), 2 (turn) or 3 (stop).
 */
module TrainingSet {
  import opened Images

  /** The three category directories, in the order they are loaded. */
  const ForwardDir: string := "./Training_Images/1"
  const TurnDir: string := "./Training_Images/2"
  const StopDir: string := "./Training_Images/3"

  /** The resized images of one directory listing, in listing order. */
  function LoadedImages(files: seq<string>): seq<Patch>
  {
    seq(|files|, k requires 0 <= k < |files| => Resized(ImageFile(files[k])))
  }

  /** `n` copies of one label. */
  function Repeat(tag: int, n: nat): seq<int>
  {
    seq(n, _ => tag)
  }

  /** All images added to the training set, forward signs first, then turn, then stop. */
  function TrainingImages(files1: seq<string>, files2: seq<string>, files3: seq<string>): seq<Patch>
  {
    LoadedImages(files1) + LoadedImages(files2) + LoadedImages(files3)
  }

  /** The labels added to the training set for directories of n1, n2 and n3 files. */
  function TrainingLabels(n1: nat, n2: nat, n3: nat): seq<int>
  {
    Repeat(1, n1) + Repeat(2, n2) + Repeat(3, n3)
  }

  /**
   * The k-th new image and the k-th new label belong together: the image is the
   * k-th file overall, and its label is the number of the directory it was listed in.
   */
  lemma TrainingPairs(files1: seq<string>, files2: seq<string>, files3: seq<string>, k: nat)
    requires k < |files1| + |files2| + |files3|
    ensures |TrainingImages(files1, files2, files3)| == |TrainingLabels(|files1|, |files2|, |files3|)|
    ensures var img, tag := TrainingImages(files1, files2, files3)[k], TrainingLabels(|files1|, |files2|, |files3|)[k];
      if k < |files1| then img == Resized(ImageFile(files1[k])) && tag == 1
      else if k < |files1| + |files2| then img == Resized(ImageFile(files2[k - |files1|])) && tag == 2
      else img == Resized(ImageFile(files3[k - |files1| - |files2|])) && tag == 3
  {
  }

  /** The labels come in three contiguous blocks: they never decrease along the set. */
  lemma TrainingLabelsNondecreasing(n1: nat, n2: nat, n3: nat)
    ensures forall k, l :: 0 <= k <= l < n1 + n2 + n3 ==>
      TrainingLabels(n1, n2, n3)[k] <= TrainingLabels(n1, n2, n3)[l]
  {
  }

  /** How many images carry each label: exactly the number of files of its directory. */
  lemma {:induction false} TrainingLabelCounts(n1: nat, n2: nat, n3: nat)
    ensures multiset(TrainingLabels(n1, n2, n3))[1] == n1
    ensures multiset(TrainingLabels(n1, n2, n3))[2] == n2
    ensures multiset(TrainingLabels(n1, n2, n3))[3] == n3
    ensures forall v :: v in TrainingLabels(n1, n2, n3) ==> 1 <= v <= 3
  {
    RepeatCount(1, n1);
    RepeatCount(2, n2);
    RepeatCount(3, n3);
    assert multiset(TrainingLabels(n1, n2, n3))
      == multiset(Repeat(1, n1)) + multiset(Repeat(2, n2)) + multiset(Repeat(3, n3));
  }

  /** A run of copies holds its label as many times as its length, and nothing else. */
  lemma {:induction false} RepeatCount(tag: int, n: nat)
    ensures multiset(Repeat(tag, n))[tag] == n
    ensures forall v :: v != tag ==> multiset(Repeat(tag, n))[v] == 0
  {
    if n > 0 {
      RepeatCount(tag, n - 1);
      assert Repeat(tag, n) == Repeat(tag, n - 1) + [tag];
    }
  }
}
