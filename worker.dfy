/** The video-processing worker: one processing cycle turns a captured frame
    and the detector outputs into a list of per-face results and an annotated
    frame, which replace the two published slots wholesale. */
module Worker {
  import opened Types
  import opened Geometry
  import opened Classifier
  import opened Annotation

  /** A colour frame: its size and what has been drawn on it. */
  datatype Frame = Frame(image: Image, marks: seq<Mark>)

  /** The features of a kept face. */
  function FeaturesOf(k: FaceDetection): Features
  {
    Summarize(k.face, k.eyes, k.smiles)
  }

  /** The result record of one kept face, fields set over the defaults: the
      rule chain's label and confidence, the centre of the face and its width. */
  function EmotionFor(k: FaceDetection): (d: EmotionData)
    ensures d.emotion != Disgusted && 0.0 <= d.confidence <= 1.0
    ensures d.faceCenter == FaceCenter(k.face) && d.faceSize == k.face.width as real
  {
    var decision := ClassifyFace(k.face, k.eyes, k.smiles);
    DefaultEmotionData.(emotion := decision.emotion, confidence := decision.confidence,
                        faceCenter := FaceCenter(k.face), faceSize := k.face.width as real)
  }

  /** One result per kept face, in the same order. */
  function Results(kept: seq<FaceDetection>): (rs: seq<EmotionData>)
    ensures |rs| == |kept|
  {
    if kept == [] then [] else Results(kept[..|kept| - 1]) + [EmotionFor(kept[|kept| - 1])]
  }

  /** One mark per kept face, in the same order. */
  function Marks(kept: seq<FaceDetection>): (ms: seq<Mark>)
    ensures |ms| == |kept|
  {
    if kept == [] then [] else Marks(kept[..|kept| - 1]) + [MarkFor(kept[|kept| - 1].face, EmotionFor(kept[|kept| - 1]).emotion)]
  }

  /** Entry `i` of the results and of the marks belongs to kept face `i`. */
  lemma {:induction false} ResultsAndMarksAt(kept: seq<FaceDetection>, i: nat)
    requires i < |kept|
    ensures Results(kept)[i] == EmotionFor(kept[i])
    ensures Marks(kept)[i] == MarkFor(kept[i].face, EmotionFor(kept[i]).emotion)
  {
    if i < |kept| - 1 {
      ResultsAndMarksAt(kept[..|kept| - 1], i);
    }
  }

  /** Appending a kept face appends its result and its mark. */
  lemma ResultsAndMarksSnoc(kept: seq<FaceDetection>, k: FaceDetection)
    ensures Results(kept + [k]) == Results(kept) + [EmotionFor(k)]
    ensures Marks(kept + [k]) == Marks(kept) + [MarkFor(k.face, EmotionFor(k).emotion)]
  {
    assert (kept + [k])[..|kept|] == kept;
  }

  /** KeptFaces over one more detection keeps what it kept before, then that
      detection when it survives. */
  lemma KeptFacesStep(gray: Image, faces: seq<FaceDetection>, i: nat)
    requires i < |faces|
    ensures KeptFaces(gray, faces[..i + 1]) == KeptFaces(gray, faces[..i]) + KeptOne(faces[i], gray)
  {
    assert faces[..i + 1][..i] == faces[..i];
  }

  /** One step of a cycle's loop: when the face at `i` is kept, the kept
      list, the results and the marks grow by it and the feature fields become
      its features; otherwise all of them stay as they were. */
  lemma CycleStep(init: Features, gray: Image, faces: seq<FaceDetection>, i: nat,
                  keptSoFar: seq<FaceDetection>, kept: bool, data: EmotionData, mark: Mark)
    requires i < |faces| && keptSoFar == KeptFaces(gray, faces[..i])
    requires kept <==> KeptOne(faces[i], gray) != []
    requires kept ==> KeptOne(faces[i], gray) == [faces[i].(face := mark.rect)]
    requires kept ==> data == EmotionFor(faces[i].(face := mark.rect))
    requires kept ==> mark == MarkFor(mark.rect, data.emotion)
    ensures kept ==>
      keptSoFar + [faces[i].(face := mark.rect)] == KeptFaces(gray, faces[..i + 1]) &&
      Results(keptSoFar) + [data] == Results(KeptFaces(gray, faces[..i + 1])) &&
      Marks(keptSoFar) + [mark] == Marks(KeptFaces(gray, faces[..i + 1])) &&
      LastFeatures(init, gray, faces[..i + 1]) == FeaturesOf(faces[i].(face := mark.rect))
    ensures !kept ==>
      keptSoFar == KeptFaces(gray, faces[..i + 1]) &&
      LastFeatures(init, gray, faces[..i + 1]) == LastFeatures(init, gray, faces[..i])
  {
    KeptFacesStep(gray, faces, i);
    if kept {
      ResultsAndMarksSnoc(keptSoFar, faces[i].(face := mark.rect));
    }
  }

  /** The results a cycle publishes for a frame of size `gray` in which the
      face detector found `faces` at half resolution. */
  function CycleResults(gray: Image, faces: seq<FaceDetection>): seq<EmotionData>
  {
    Results(KeptFaces(gray, faces))
  }

  /** The feature fields after a cycle: those of the last kept face, or the
      previous ones when no face was kept. */
  function LastFeatures(init: Features, gray: Image, faces: seq<FaceDetection>): Features
  {
    var kept := KeptFaces(gray, faces);
    if kept == [] then init
    else FeaturesOf(kept[|kept| - 1])
  }

  /** What a published result list promises: at most one entry per detected
      face; each with a confidence in [0, 1], a label other than Disgusted, a
      centre strictly inside the frame and a positive size no wider than it. */
  lemma {:induction false} CycleResultsWellFormed(gray: Image, faces: seq<FaceDetection>)
    ensures |CycleResults(gray, faces)| <= |faces|
    ensures forall i :: 0 <= i < |CycleResults(gray, faces)| ==>
      var d := CycleResults(gray, faces)[i];
      0.0 <= d.confidence <= 1.0 && d.emotion != Disgusted &&
      0.0 < d.faceCenter.x < gray.cols as real && 0.0 < d.faceCenter.y < gray.rows as real &&
      0.0 < d.faceSize <= gray.cols as real
  {
    var kept := KeptFaces(gray, faces);
    forall i | 0 <= i < |kept|
      ensures var d := Results(kept)[i];
        0.0 <= d.confidence <= 1.0 && d.emotion != Disgusted &&
        0.0 < d.faceCenter.x < gray.cols as real && 0.0 < d.faceCenter.y < gray.rows as real &&
        0.0 < d.faceSize <= gray.cols as real
    {
      ResultsAndMarksAt(kept, i);
      FaceCenterInFrame(kept[i].face, gray);
    }
  }

  /** Doubles a face rectangle found at half resolution and clamps it to the
      frame `gray`, field by field; the face is kept exactly when the width
      and height left are positive, and then it is ScaleAndClamp's result. */
  method ScaleFace(face: Rect, gray: Image) returns (scaledFace: Rect)
    ensures scaledFace.width > 0 && scaledFace.height > 0 <==> ScaleAndClamp(face, gray).Some?
    ensures ScaleAndClamp(face, gray).Some? ==> ScaleAndClamp(face, gray).value == scaledFace
  {
    scaledFace := Rect(face.x * 2, face.y * 2, face.width * 2, face.height * 2);
    scaledFace := scaledFace.(x := Max(0, scaledFace.x));
    scaledFace := scaledFace.(y := Max(0, scaledFace.y));
    scaledFace := scaledFace.(width := Min(scaledFace.width, gray.cols - scaledFace.x));
    scaledFace := scaledFace.(height := Min(scaledFace.height, gray.rows - scaledFace.y));
  }

  /** The face tracker's worker thread, with the state its cycles update. */
  class VideoProcessingThread {
    /** Cleared by Stop; the worker loop runs while it is set. */
    var running: bool

    /** The two published slots. */
    var emotionResults: seq<EmotionData>
    var processedFrame: Frame

    /** The feature fields of the face classified last. */
    var hasSmile: bool
    var hasBothEyes: bool
    var hasOneEye: bool
    var hasNoEyes: bool
    var eyeAspectRatio: real
    var relativeEyeSize: real
    var smileWidth: real
    var smileHeight: real
    var smileIntensity: real

    /** Declared history of past labels; no operation reads or writes it. */
    var emotionHistory: seq<Emotion>
    const historySize: int := 10

    /** The feature fields, read together. */
    function FeatureFields(): Features
      reads this
    {
      Features(hasSmile, hasBothEyes, hasOneEye, hasNoEyes, eyeAspectRatio,
               relativeEyeSize, smileWidth, smileHeight, smileIntensity)
    }

    /** A new worker is running and has published nothing: no results and an
        empty frame. */
    constructor ()
      ensures running
      ensures emotionResults == [] && IsEmpty(processedFrame.image)
      ensures emotionHistory == [] && historySize == 10
      ensures smileWidth == 0.0 && smileHeight == 0.0
    {
      running := true;
      emotionResults := [];
      processedFrame := Frame(Image(0, 0), []);
      emotionHistory := [];
      smileWidth, smileHeight := 0.0, 0.0;
    }

    /** Asks the worker loop to end; nothing else changes. */
    method Stop()
      modifies this`running
      ensures !running
    {
      running := false;
    }

    /** A copy of the published frame, when one has been published;
        otherwise `outFrame` is handed back untouched. */
    method GetProcessedFrame(outFrame: Frame) returns (ok: bool, frame: Frame)
      ensures ok <==> !IsEmpty(processedFrame.image)
      ensures frame == if ok then processedFrame else outFrame
    {
      if !IsEmpty(processedFrame.image) {
        return true, processedFrame;
      }
      return false, outFrame;
    }

    /** A copy of the published result list. */
    method GetEmotionData() returns (results: seq<EmotionData>)
      ensures results == emotionResults
    {
      results := emotionResults;
    }

    /** Derives the features of one face from what the eye detector found in
        the face region and the smile detector in its lower half, stores them
        in the feature fields and classifies them. The face region is the
        part of the frame the face rectangle covers. */
    method DetectEmotion(faceRoi: Image, faceRect: Rect, eyes: seq<Rect>, smiles: seq<Rect>)
      returns (emotion: Emotion, confidence: real)
      requires faceRoi.cols == faceRect.width && faceRoi.rows == faceRect.height
      modifies this`hasSmile, this`hasBothEyes, this`hasOneEye, this`hasNoEyes,
               this`eyeAspectRatio, this`relativeEyeSize, this`smileWidth, this`smileHeight,
               this`smileIntensity
      ensures FeatureFields() == Summarize(faceRect, eyes, smiles)
      ensures Decision(emotion, confidence) == ClassifyFace(faceRect, eyes, smiles)
    {
      // the image the smile detector searches; cropping it stays inside the face
      var lowerFaceRoi := Crop(faceRoi, SmileSearchRegion(faceRoi));

      hasSmile := |smiles| > 0;
      hasBothEyes := |eyes| >= 2;
      hasOneEye := |eyes| == 1;
      hasNoEyes := |eyes| == 0;

      var avgEyeHeight, avgEyeWidth := 0.0, 0.0;
      if |eyes| > 0 {
        avgEyeHeight, avgEyeWidth := AccumulateSizes(eyes);
        avgEyeHeight := avgEyeHeight / |eyes| as real;
        avgEyeWidth := avgEyeWidth / |eyes| as real;
      }
      eyeAspectRatio := if avgEyeWidth > 0.0 then avgEyeHeight / avgEyeWidth else 0.0;
      relativeEyeSize := if faceRect.height > 0 then avgEyeHeight / faceRect.height as real else 0.0;

      smileWidth, smileHeight := 0.0, 0.0;
      if hasSmile {
        smileHeight, smileWidth := AccumulateSizes(smiles);
        smileWidth := smileWidth / |smiles| as real;
        smileHeight := smileHeight / |smiles| as real;
      }
      smileIntensity := |smiles| as real;

      var decision := Classify(FeatureFields());
      emotion, confidence := decision.emotion, decision.confidence;
    }

    /** One face of a cycle: it is doubled and clamped to the frame `gray`;
        when a positive width and height are left it is classified, which
        updates the feature fields, and gets a result and a mark. A face that
        is dropped leaves the feature fields as they were. */
    method ClassifyDetection(gray: Image, detection: FaceDetection)
      returns (kept: bool, data: EmotionData, mark: Mark)
      modifies this`hasSmile, this`hasBothEyes, this`hasOneEye, this`hasNoEyes,
               this`eyeAspectRatio, this`relativeEyeSize, this`smileWidth, this`smileHeight,
               this`smileIntensity
      ensures kept <==> KeptOne(detection, gray) != []
      ensures kept ==> KeptOne(detection, gray) == [detection.(face := mark.rect)]
      ensures kept ==> var k := detection.(face := mark.rect);
        data == EmotionFor(k) && mark == MarkFor(k.face, data.emotion) && FeatureFields() == FeaturesOf(k)
      ensures !kept ==> FeatureFields() == old(FeatureFields())
    {
      var scaledFace := ScaleFace(detection.face, gray);
      if scaledFace.width <= 0 || scaledFace.height <= 0 {
        return false, DefaultEmotionData, MarkFor(scaledFace, Neutral);
      }
      var faceRoi := Crop(gray, scaledFace);
      var emotion, confidence := DetectEmotion(faceRoi, scaledFace, detection.eyes, detection.smiles);
      data := DefaultEmotionData.(emotion := emotion, confidence := confidence,
                                  faceCenter := FaceCenter(scaledFace),
                                  faceSize := scaledFace.width as real);
      mark := MarkFor(scaledFace, emotion);
      kept := true;
    }

    /** The loop of a processing cycle over the faces found: each face that
        survives doubling and clamping to the frame `gray` is classified and
        gets a result and a mark, appended in detection order. */
    method ClassifyFaces(gray: Image, faces: seq<FaceDetection>)
      returns (newEmotions: seq<EmotionData>, marks: seq<Mark>)
      modifies this`hasSmile, this`hasBothEyes, this`hasOneEye, this`hasNoEyes,
               this`eyeAspectRatio, this`relativeEyeSize, this`smileWidth, this`smileHeight,
               this`smileIntensity
      ensures newEmotions == CycleResults(gray, faces)
      ensures marks == Marks(KeptFaces(gray, faces))
      ensures FeatureFields() == LastFeatures(old(FeatureFields()), gray, faces)
    {
      newEmotions, marks := [], [];
      ghost var initial := FeatureFields();
      ghost var keptSoFar: seq<FaceDetection> := [];
      for i := 0 to |faces|
        invariant keptSoFar == KeptFaces(gray, faces[..i])
        invariant newEmotions == Results(keptSoFar)
        invariant marks == Marks(keptSoFar)
        invariant FeatureFields() == LastFeatures(initial, gray, faces[..i])
      {
        var kept, data, mark := ClassifyDetection(gray, faces[i]);
        CycleStep(initial, gray, faces, i, keptSoFar, kept, data, mark);
        if kept {
          newEmotions := newEmotions + [data];
          marks := marks + [mark];
          keptSoFar := keptSoFar + [faces[i].(face := mark.rect)];
        }
      }
      assert faces[..|faces|] == faces;
    }

    /** One processing cycle. A failed or empty capture changes nothing.
        Otherwise every face is doubled, clamped and, when something is left
        of it, classified and marked; the result list and the marked frame
        then replace the published slots. */
    method ProcessFrame(capture: Option<Image>, faces: seq<FaceDetection>)
      modifies this`emotionResults, this`processedFrame,
               this`hasSmile, this`hasBothEyes, this`hasOneEye, this`hasNoEyes,
               this`eyeAspectRatio, this`relativeEyeSize, this`smileWidth, this`smileHeight,
               this`smileIntensity
      ensures capture.None? || IsEmpty(capture.value) ==>
        emotionResults == old(emotionResults) && processedFrame == old(processedFrame) &&
        FeatureFields() == old(FeatureFields())
      ensures capture.Some? && !IsEmpty(capture.value) ==>
        emotionResults == CycleResults(capture.value, faces) &&
        processedFrame == Frame(capture.value, Marks(KeptFaces(capture.value, faces))) &&
        FeatureFields() == LastFeatures(old(FeatureFields()), capture.value, faces)
    {
      if capture.None? {
        return;
      }
      var frame := capture.value;
      if IsEmpty(frame) {
        return;
      }
      // mirroring and grayscale conversion keep the frame's size
      var gray := frame;
      var newEmotions, marks := ClassifyFaces(gray, faces);
      emotionResults := newEmotions;
      processedFrame := Frame(frame, marks);
    }
  }
}
