# Traffic-sign classifier: a Dafny model of its bookkeeping

The system is a ROS node that finds traffic signs in camera frames. The
`classifier` class in `src/classifier.cpp` does the following:

- It proposes candidate regions in a frame with an MSER detector.
- It keeps the regions whose height/width ratio lies strictly between 0.8 and 1.2.
- It crops each kept region and resizes it to a 64×64 patch.
- It computes a HOG descriptor per patch and packs the descriptors into a sample matrix.
- It asks a trained support-vector machine for labels.
- It draws the kept boxes, captioned "Forward", "Turn" or "Stop".

For training, it loads three directories of example images and labels them 1, 2 and 3.

This project models the logic of that class that does not touch pixels. The
OpenCV, ROS and SVM calls become opaque inputs:

- the detector's boxes are a `seq<Box>`;
- a descriptor computation is a function `Patch -> seq<real>`;
- a directory listing is a function `string -> seq<string>`;
- the SVM's answer is a `seq<real>`.

Modules:

- `Images` (`images.dfy`): boxes (`cv::Rect`) and opaque 64×64 patches. A patch records only its source: a crop of a frame, or an image file.
- `RegionFilter` (`region_filter.dfy`): the aspect-ratio filter over a detector output. It defines which boxes survive (`Kept`, `KeptIndices`) and what the `area` out-parameter ends up holding (`AreaAfter`). Lemmas show that the filter is sound, complete and keeps detector order.
- `TrainingSet` (`training_set.dfy`): the images and labels that training-set loading appends. The labels are n1 ones, then n2 twos, then n3 threes.
- `SignLabels` (`sign_labels.dfy`): the label→caption mapping used by the overlay.
- `SignClassifier` (`sign_classifier.dfy`): the class `Classifier`. Its fields are `boxes` and `trafficSign`. Each in-scope C++ member is an imperative method proved against the specification functions above.

Behaviour of the code that the model keeps as it is:

- The code does not clamp boxes that leave the frame.
- The code keeps one label per frame, not one per region. `SvmTesting` stores only the first row's prediction, and `Visualization` captions every box with it.
- The code has no error path for an empty sample list or an empty training set. There it has undefined behaviour, so the model makes these preconditions.

## Model

| member | source | states |
|---|---|---|
| `RegionFilter.AspectOkIsRatioTest` | src/classifier.cpp:90-93 | For a box of positive width, the integer test `4w < 5h < 6w` holds exactly when 0.8 < h/w < 1.2 in exact arithmetic, with both bounds strict |
| `RegionFilter.ZeroWidthRejected` | src/classifier.cpp:90-93 | A box of width 0 never passes the ratio test |
| `RegionFilter.Kept` | src/classifier.cpp:88-106 | The filter never yields more boxes than the detector produced |
| `RegionFilter.KeptSound` | src/classifier.cpp:93-104 | Every kept box passes the ratio test |
| `RegionFilter.KeptComplete` | src/classifier.cpp:88-104 | Every detector box that passes the ratio test is kept |
| `RegionFilter.KeptInDetectorOrder` | src/classifier.cpp:88-106 | The k-th kept box is the detector box at the k-th passing position. Positions strictly increase, and a position is listed exactly when its box passes |
| `RegionFilter.AreaAfterIsLastKept` | src/classifier.cpp:97 | After the loop, `area` is h*w of the last kept box, or its input value when no box was kept |
| `SignClassifier.Classifier.MserFeatures` | src/classifier.cpp:58-108 | `boxes` gains exactly the kept boxes, appended after its unchanged old contents. The returned detections match the appended boxes one to one, in order. `area` is as in `AreaAfter`. `trafficSign` is unchanged, and the invariant that stored boxes pass the filter is kept |
| `SignClassifier.Classifier.HogFeatures` | src/classifier.cpp:110-133 | Needs at least one patch, and no descriptor may be shorter than the first. The new matrix has one row per patch and as many columns as the first descriptor. Entry (i, j) is entry j of patch i's descriptor |
| `SignClassifier.Classifier.LoadTrainingImgs` | src/classifier.cpp:135-178 | The old images and labels are an unchanged prefix. The images appended are the three listings' files in order. The labels appended are the training labels for the three listing sizes, so both vectors grow by the same amount |
| `SignClassifier.Classifier.TrainStage` | src/classifier.cpp:194-210 | Returns 1. The training matrix has one row per loaded image, holding that image's descriptor. When the vectors start equally long, the row count equals the label count |
| `SignClassifier.Classifier.SvmTesting` | src/classifier.cpp:212-225 | Needs at least one prediction row. It returns row 0's prediction, stores it in `trafficSign`, and leaves `boxes` alone |
| `SignClassifier.Annotate` | src/classifier.cpp:234-250 | A box is drawn with a caption exactly when the label is 1, 2 or 3. The caption text is the label's text, anchored at (x, y - 5) of the box |
| `SignClassifier.Classifier.Visualization` | src/classifier.cpp:227-257 | Returns 1. It draws every stored box in order, each captioned from the one stored label, then empties `boxes`. When every stored box passed the ratio filter, so does every drawn box |
| `TrainingSet.TrainingPairs` | src/classifier.cpp:143-177 | The appended images and labels are equally long. Pair k is the k-th listed file with the label of its directory: 1, then 2, then 3 |
| `TrainingSet.TrainingLabelsNondecreasing` | src/classifier.cpp:143-177 | The appended labels never decrease, so each label forms one contiguous block |
| `TrainingSet.TrainingLabelCounts` | src/classifier.cpp:143-177 | Label 1 appears n1 times, 2 appears n2 times and 3 appears n3 times, and no other label appears |
| `SignLabels.SignTextDistinguishes` | src/classifier.cpp:236-250 | A label has a caption exactly when it is 1, 2 or 3, and different labels have different captions |
| `SignClassifier.TrainedLabelsHaveText` | src/classifier.cpp:148-176 | Every label in the appended training labels, for any directory sizes, has a caption in the overlay mapping |

## Left out

- Frame acquisition (`imageCallback`, src/classifier.cpp:36-48) and the stored frame `imagen`: ROS message conversion is transport I/O. A frame is an opaque number.
- `deNoise` (:50-56): a floating-point Gaussian blur inside OpenCV.
- The red/blue normalisation, `max` and `threshold` (:66-78): they depend on OpenCV's saturating 8-bit arithmetic and rounding.
- `MSER::detectRegions` (:81-85): its output is the parameter `mserBoxes`.
- Pixel contents of crops and resizes (:95, :100, :146 and the like): a patch records only its source and its 64×64 size. The code does not clamp boxes that leave the frame, so no clamping is modelled. What OpenCV does with such a box is not modelled either.
- `hog.compute` (:117): the descriptor is the opaque parameter `hog`. Its values are only copied.
- `SVMTraining` (:180-192) and `svm->predict` (:216): parameter setting, training and prediction happen in a foreign floating-point library. The prediction is the parameter `answer`, the first column of each row.
- `cv::glob` and `cv::imread` (:138-176): the listing is the parameter `listing`. A failed read and its error are not modelled.
- ROS logging and the 2-second sleep in `trainStage` (:196, :205-206). The window, the "Robot View" title, rectangles and text rendering (:228-255) are UI. Only the caption choice and `boxes.clear()` are modelled.
- RegionFilter.AspectOkIsRatioTest: relates the integer test to the exact ratio, not to the `double` quotient of :90-93. The two agree for image-sized boxes; this holds because the boundary ratios 4/5 and 6/5 round to the same doubles as the literals 0.8 and 1.2. That floating-point fact is assumed, not proved.
- SignClassifier.Classifier.MserFeatures: `area` is an integer. The code computes h*w as a `double`, which is exact for image-sized boxes.
- `Box`: width and height are natural numbers, because the detector never reports negative sizes; `cv::Rect` itself allows them.
- `trafficSign` is a `real` holding the prediction. The header `classifier.hpp` is not part of this model. If it declares the field as an integer, the truncation on assignment is not modelled.
- `SignClassifier.Classifier.constructor`: the class's construction is in the header, which is not part of this model. The model only establishes empty `boxes`; the initial `trafficSign` is left unspecified.
- Calling `HogFeatures` with no patches, or `SvmTesting` with no prediction rows, is undefined behaviour in the code. Both are preconditions here, not error results. The same holds for descriptors shorter than the first one.
- The program's driver, which calls these members once per frame, is not part of this model.
