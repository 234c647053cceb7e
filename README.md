# Facial-expression tracker: a Dafny model

This project models the deterministic core of the webcam emotion tracker in
`Source/HonoursProject/FaceTracker.cpp` and `FaceTracker.h`. The tracker has
two parts.

- **The worker** (`FVideoProcessingThread`). One processing cycle takes a
  captured frame and the faces the face detector found at half resolution.
  It doubles each face rectangle, moves its corner to non-negative
  coordinates, cuts its extent at the frame's right and bottom edges and
  drops it when the width or height left is not positive. It derives eye and
  smile features from what the eye and smile detectors found inside each kept
  face and classifies them with an ordered rule chain. It then builds one result record and one frame
  annotation per kept face. The result list and the annotated frame replace
  the two published slots wholesale.
- **The presenter** (`AFaceTracker`). It starts and stops the worker. On each
  engine tick it passes the elapsed time through a rate gate. When the gate
  opens it copies the worker's result list and raises a notification when the
  first result's label differs from the label it last reported.

The model works on these values:

- Detector outputs are inputs: a `FaceDetection` is a face rectangle with the
  eye and smile rectangles found for it.
- Images are their sizes only.
- A frame is its size plus the marks drawn on it. A mark is the rectangle,
  the colour and the label text.
- Floating-point values are `real`.
- A default result record (`DefaultEmotionData`, `FaceTracker.h:44-54`) is
  Neutral, with confidence 0, centre (0, 0) and size 0. Every result is built
  as an update of it that sets all four fields.

Modules:

- `Types`: the label enumeration, the result record, rectangles and images,
  `FMath::Clamp`.
- `Geometry`: rescale and clamp, the kept-face list, the smile search region,
  region-of-interest extraction and face centres.
- `Classifier`: the feature summary, the summing loop and the rule chain,
  with one if-and-only-if lemma per rule.
- `Annotation`: the label-to-colour and label-to-text switch.
- `Worker`: the worker class, which has the stop flag, the two published
  slots and the feature fields. `DetectEmotion` and the cycle update these in
  place and are proved against the specification functions above.
- `Presenter`: the tracker class. `Tick` is proved against the rate-gate
  function and the change-notification function, and lemmas bound how often
  the gate can open.

Two details follow the code exactly:

- The smile rectangles are never translated back into face coordinates. Only
  their count and mean size are used, so the model does not translate them
  either.
- A face whose doubled corner has negative coordinates is moved to the frame
  edge, keeping its doubled extent where the frame allows it. It is not cut
  at the edge (`ScaleAndClampKeepsExactly`).

A target rate of 0 makes `1.0f / TargetFPS` infinite, so the gate never opens.
The model states this explicitly.

## Model

| member | source | states |
|---|---|---|
| `Types.AllEmotionsComplete` | Source/HonoursProject/FaceTracker.h:27-36 | there are exactly seven labels, every label is among them and they are pairwise distinct |
| `Types.Clamp` | Source/HonoursProject/FaceTracker.cpp:500 | the clamped value lies in [lo, hi] and equals the input when the input already does |
| `Geometry.ScaleAndClamp` | Source/HonoursProject/FaceTracker.cpp:339-351 | a kept rectangle lies inside the frame with positive width and height, its corner at the doubled corner moved to non-negative coordinates |
| `Geometry.ScaleAndClampKeepsInsideFaces` | Source/HonoursProject/FaceTracker.cpp:339-346 | a face whose doubled rectangle is already inside the frame and non-empty is kept unchanged |
| `Geometry.ScaleAndClampKeepsExactly` | Source/HonoursProject/FaceTracker.cpp:339-351 | a face is kept if and only if it has positive extent and its shifted doubled corner lies inside the frame; the kept extent is the doubled one cut at the right and bottom edges |
| `Geometry.KeptFaces` | Source/HonoursProject/FaceTracker.cpp:336-351 | a cycle keeps at most as many faces as were detected, and each kept rectangle is inside the frame and non-empty |
| `Geometry.KeptFacesCons` | Source/HonoursProject/FaceTracker.cpp:336-351 | the kept list is the first face's outcome followed by the rest's, so detection order is preserved |
| `Geometry.KeptFacesAllSurvive` | Source/HonoursProject/FaceTracker.cpp:336-351 | when every face survives, every face is kept, at its own position, with its clamped rectangle |
| `Geometry.SmileSearchRegion` | Source/HonoursProject/FaceTracker.cpp:442 | the smile search region is the lower half of the face region: it starts at mid-height (rounded down), is as tall as its offset, spans the full width, lies inside the face region and ends at its bottom row or one above it |
| `Geometry.Crop` | Source/HonoursProject/FaceTracker.cpp:354 | a region of interest can only be taken inside the image; it has the rectangle's extent and is no larger than the image |
| `Geometry.FaceCenter` | Source/HonoursProject/FaceTracker.cpp:364-367 | the centre is equally far from the left and right edges and from the top and bottom edges, and lies within a rectangle of non-negative extent |
| `Geometry.FaceCenterInFrame` | Source/HonoursProject/FaceTracker.cpp:364-367 | the centre of a kept face lies strictly inside the frame |
| `Classifier.AccumulateSizes` | Source/HonoursProject/FaceTracker.cpp:458-467 | the summing loop yields the total height and the total width of the rectangles |
| `Classifier.MeanHeight` | Source/HonoursProject/FaceTracker.cpp:465 | the mean height of the eye (or smile) rectangles times their number is their total height; 0 when there are none |
| `Classifier.MeanWidth` | Source/HonoursProject/FaceTracker.cpp:466 | the mean width of the eye (or smile) rectangles times their number is their total width; 0 when there are none |
| `Classifier.Summarize` | Source/HonoursProject/FaceTracker.cpp:449-490 | the smile flag holds iff there is a smile; the three eye flags hold iff there are 2 or more, exactly 1, or no eyes; the eye ratios are 0 without eyes and the smile sizes are 0 without smiles; the smile intensity is the smile count |
| `Classifier.RelativeEyeSizeIsMeanOverHeight` | Source/HonoursProject/FaceTracker.cpp:473 | with eyes found, the relative eye size times the number of eyes times the face height is the total eye height; a face of no height gets 0 |
| `Classifier.EyeAspectRatioIsHeightOverWidth` | Source/HonoursProject/FaceTracker.cpp:470 | when the eye widths add up to a positive total, the eye aspect ratio times that total is the total eye height |
| `Classifier.EyeAspectRatioWithoutWidth` | Source/HonoursProject/FaceTracker.cpp:470 | when the eye widths add up to nothing, the eye aspect ratio is 0 |
| `Classifier.SmileSizesAreMeans` | Source/HonoursProject/FaceTracker.cpp:479-488 | with smiles found, the smile width and height times the number of smiles are the total smile width and height |
| `Classifier.EyeFlagsPartition` | Source/HonoursProject/FaceTracker.cpp:450-452 | exactly one of the three eye flags holds |
| `Classifier.SumHeightsBounds` | Source/HonoursProject/FaceTracker.cpp:460-465 | rectangles of height between 0 and a bound add up to between 0 and the bound times their number |
| `Classifier.RelativeEyeSizeBounds` | Source/HonoursProject/FaceTracker.cpp:473 | for eyes found inside the face region, the relative eye size (mean eye height over face height) lies in [0, 1] |
| `Classifier.Classify` | Source/HonoursProject/FaceTracker.cpp:493-533 | the rule chain's confidence always lies in [0, 1] and it never yields Disgusted |
| `Classifier.HappyRule` | Source/HonoursProject/FaceTracker.cpp:497-501 | a face is Happy iff a smile was found, whatever the eyes; its confidence is 0.6 + 0.1 per smile, clamped to 1 from four smiles on |
| `Classifier.SurprisedRule` | Source/HonoursProject/FaceTracker.cpp:503-507 | a face is Surprised iff no smile, 2 or more eyes and relative eye size above 0.15; its confidence is 0.55 + 2 * size, clamped to 1 |
| `Classifier.AngryRule` | Source/HonoursProject/FaceTracker.cpp:509-513 | a face is Angry iff no smile and fewer than two eyes; confidence 0.55 |
| `Classifier.SadRule` | Source/HonoursProject/FaceTracker.cpp:515-519 | a face is Sad iff no smile, 2 or more eyes and relative eye size below 0.12; confidence 0.5 |
| `Classifier.FearfulRule` | Source/HonoursProject/FaceTracker.cpp:521-525 | a face is Fearful iff no smile, 2 or more eyes and relative eye size in (0.13, 0.15]; confidence 0.5 |
| `Classifier.NeutralRule` | Source/HonoursProject/FaceTracker.cpp:527-531 | a face is Neutral iff no smile, 2 or more eyes and relative eye size in [0.12, 0.13]; confidence 0.6 |
| `Classifier.Scenarios` | Source/HonoursProject/FaceTracker.cpp:497-519 | worked cases: two smiles give Happy 0.8, two large eyes give Surprised 0.95, no eyes give Angry 0.55, two small eyes give Sad 0.5 |
| `Classifier.SurprisedFromRectangles` | Source/HonoursProject/FaceTracker.cpp:449-507 | from rectangles: two 20-high eyes in a 100-high face and no smile give relative eye size 0.2 and Surprised at 0.95 |
| `Annotation.LabelColour` | Source/HonoursProject/FaceTracker.cpp:375-405 | the label can be read back from its outline colour |
| `Annotation.LabelText` | Source/HonoursProject/FaceTracker.cpp:375-405 | the label can be read back from its text |
| `Annotation.MarksIdentifyLabels` | Source/HonoursProject/FaceTracker.cpp:375-405 | different labels get different colours and different texts |
| `Annotation.MarkFor` | Source/HonoursProject/FaceTracker.cpp:407-413 | a face's mark outlines its own rectangle, and its label can be read back from both its colour and its text |
| `Worker.EmotionFor` | Source/HonoursProject/FaceTracker.cpp:361-368 | a face's record has a confidence in [0, 1], a label other than Disgusted, centre (x + w/2, y + h/2) and size w |
| `Worker.Results` | Source/HonoursProject/FaceTracker.cpp:361-369 | one result per kept face |
| `Worker.Marks` | Source/HonoursProject/FaceTracker.cpp:372-413 | one mark per kept face |
| `Worker.ResultsAndMarksAt` | Source/HonoursProject/FaceTracker.cpp:361-413 | entry i of the results is kept face i's record: its label and confidence from the rule chain, centre (x + w/2, y + h/2), size w; mark i is that face's rectangle in its label's colour and text |
| `Worker.ResultsAndMarksSnoc` | Source/HonoursProject/FaceTracker.cpp:369 | keeping one more face appends its result and its mark |
| `Worker.KeptFacesStep` | Source/HonoursProject/FaceTracker.cpp:336-351 | one more detected face appends its own outcome to the kept list |
| `Worker.CycleStep` | Source/HonoursProject/FaceTracker.cpp:336-420 | one loop iteration either appends the face to the kept list, the results and the marks and makes its features current, or leaves all of them as they were |
| `Worker.CycleResultsWellFormed` | Source/HonoursProject/FaceTracker.cpp:336-369 | a published list has at most one entry per detected face, each with confidence in [0, 1], a label other than Disgusted, a centre strictly inside the frame and a positive size no wider than it |
| `Worker.ScaleFace` | Source/HonoursProject/FaceTracker.cpp:339-348 | the field-by-field clamp leaves a positive width and height exactly when ScaleAndClamp keeps the face, and then yields its rectangle |
| `Worker.VideoProcessingThread.constructor` | Source/HonoursProject/FaceTracker.cpp:218-226 | a new worker is running and has published no results and an empty frame; its smile sizes start at 0 and its history size is 10 |
| `Worker.VideoProcessingThread.Stop` | Source/HonoursProject/FaceTracker.cpp:277-280 | the running flag is cleared and nothing else changes |
| `Worker.VideoProcessingThread.GetProcessedFrame` | Source/HonoursProject/FaceTracker.cpp:287-296 | succeeds iff a non-empty frame has been published and then hands over that frame; otherwise the caller's frame is left as it was |
| `Worker.VideoProcessingThread.GetEmotionData` | Source/HonoursProject/FaceTracker.cpp:298-302 | returns the published result list |
| `Worker.VideoProcessingThread.DetectEmotion` | Source/HonoursProject/FaceTracker.cpp:435-534 | given the region the face rectangle covers, the feature fields become the face's feature summary and the label and confidence are the rule chain's verdict on it |
| `Worker.VideoProcessingThread.ClassifyDetection` | Source/HonoursProject/FaceTracker.cpp:338-419 | a face is classified iff it survives clamping; then its result record, its mark and the feature fields are those of the kept face; otherwise the feature fields are unchanged |
| `Worker.VideoProcessingThread.ClassifyFaces` | Source/HonoursProject/FaceTracker.cpp:334-420 | the face loop yields exactly the results and marks of the kept faces, in detection order, and leaves the features of the last kept face (or the earlier ones when none is kept) |
| `Worker.VideoProcessingThread.ProcessFrame` | Source/HonoursProject/FaceTracker.cpp:304-433 | a failed or empty capture changes nothing; otherwise the result slot becomes the cycle's results and the frame slot the frame with the cycle's marks |
| `Presenter.LeadingChange` | Source/HonoursProject/FaceTracker.cpp:138-146 | a notification is raised iff the list is non-empty and its first label differs from the last one; it carries that label and confidence |
| `Presenter.NextLeading` | Source/HonoursProject/FaceTracker.cpp:138-146 | after a poll of a non-empty list the remembered label is its first label; after an empty one it is unchanged |
| `Presenter.NotificationSettles` | Source/HonoursProject/FaceTracker.cpp:138-146 | polling the same list again raises nothing |
| `Presenter.RateGate` | Source/HonoursProject/FaceTracker.cpp:116-125 | when the gate opens the accumulator is reset to 0; while it stays closed the tick's elapsed time is added to it |
| `Presenter.RateGateOpensAtInterval` | Source/HonoursProject/FaceTracker.cpp:116-125 | the gate opens iff the rate is not 0 and the accumulated plus elapsed time reaches one frame interval; while it stays closed at a positive rate the accumulator stays below one interval |
| `Presenter.PollsUseUpTime` | Source/HonoursProject/FaceTracker.cpp:116-125 | each opening of the gate uses up at least one frame interval of elapsed time, and the accumulator stays non-negative |
| `Presenter.RateCap` | Source/HonoursProject/FaceTracker.cpp:116-125 | over ticks totalling T seconds the gate opens at most TargetFPS * (T + already accumulated) times |
| `Presenter.ZeroRateNeverPolls` | Source/HonoursProject/FaceTracker.cpp:119-123 | with a target rate of 0 the gate never opens, and the accumulator ends at the starting value plus every tick's elapsed time |
| `Presenter.FaceTracker.constructor` | Source/HonoursProject/FaceTracker.cpp:4-22 | a new tracker is 640 by 480 at 30 frames per second, with no worker, nothing accumulated and Neutral as the last label |
| `Presenter.FaceTracker.BeginPlay` | Source/HonoursProject/FaceTracker.cpp:25-104 | when the camera does not open nothing changes; otherwise the reported size is kept and a fresh running worker with no results is started |
| `Presenter.FaceTracker.Tick` | Source/HonoursProject/FaceTracker.cpp:107-148 | without a worker or a texture nothing happens; otherwise the accumulator follows the rate gate and, when the gate opens, the result list is copied and the last label and the notification follow the change rule |
| `Presenter.FaceTracker.EndPlay` | Source/HonoursProject/FaceTracker.cpp:150-191 | the worker is stopped and released; its published slots and the tracker's other fields stay as they were |

## Left out

- Image processing is not modelled: `flip`, `cvtColor`, `resize`, `equalizeHist`, the cascade detectors, `rectangle`, `putText` and `clone`. Detector results are inputs, images are sizes and drawing is the label's colour and text.
- The confidence text written under each face (`FaceTracker.cpp:416`) is not modelled. It is a rendering of the confidence truncated to a percentage.
- Floating-point rounding is not modelled. Values are exact reals, so for example 0.6 + 0.1 * n is exact.
- The `int32` overflow of doubling a rectangle is not modelled, because integers are unbounded.
- The worker loop `Run` is not modelled: the thread, `Sleep`, the locks, the debug messages and the `isOpened` check around each cycle. Concurrency is their point. The two slots are modelled only as sequential replace-wholesale and read-a-copy fields.
- `Tick`'s call to `GetProcessedFrame` and `UpdateTexture` is not modelled. Texture upload is engine rendering. `GetProcessedFrame` itself is modelled.
- Camera opening and configuration, cascade loading, logging, texture creation and the texture-region buffer in `BeginPlay` are not modelled. They become its parameters: whether the camera opened, the size it reports and whether a texture was created.
- `EndPlay` waiting for the thread, releasing the camera and freeing the texture region are not modelled. They are resource management.
- `BrowIntensity`, `MouthAspectRatio` and `CurrentFrame` are not modelled. No code reads or writes them. `EmotionHistory` is a field that nothing changes; there is no smoothing.
- The feature fields other than the smile sizes are uninitialised in the source, so the new worker's contract leaves them unconstrained.
- `FaceTracker.h`'s commented-out detection settings are not modelled.
- The player controller, the camera manager, the game mode and the build files are not part of this model.
