/**
 * Values the classifier passes around without looking inside them: bounding
 * boxes reported by the region detector, and the fixed-size patches that are
 * cropped from a camera frame or read from a training image file.
 *
 * Pixel contents are opaque: a patch records only where it came from and its
 * size after resizing, which is all the bookkeeping of the classifier depends on.
 */
module Images {

  /** An axis-aligned bounding box in frame coordinates (a cv::Rect). */
  datatype Box = Box(x: int, y: int, width: nat, height: nat)

  /** The pixel area of a box, height times width. */
  function Area(b: Box): nat
  {
    b.height * b.width
  }

  /** Side length of the square patches the classifier is trained and run on. */
  const PatchSize: nat := 64

  /** Where a patch's pixels come from. */
  datatype Source =
    | Crop(frame: nat, rect: Box)   // the part of camera frame `frame` under `rect`
    | ImageFile(path: string)       // a training image read from disk

  /** A resized image patch; its pixels are not modelled. */
  datatype Patch = Patch(source: Source, rows: nat, cols: nat)

  /** Resizing a source to the classifier's patch size. */
  function Resized(s: Source): Patch
  {
    Patch(s, PatchSize, PatchSize)
  }
}
