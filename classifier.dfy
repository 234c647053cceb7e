/** The per-face feature summary and the first-match rule chain that turns it
    into an emotion label with a confidence. */
module Classifier {
  import opened Types

  /** The features the worker derives for one face; each field is one of the
      worker's feature fields of the same name. */
  datatype Features = Features(
    hasSmile: bool,
    hasBothEyes: bool,
    hasOneEye: bool,
    hasNoEyes: bool,
    eyeAspectRatio: real,
    relativeEyeSize: real,
    smileWidth: real,
    smileHeight: real,
    smileIntensity: real)

  /** Total height and total width of a list of rectangles. */
  function SumHeights(rs: seq<Rect>): real
  {
    if rs == [] then 0.0 else SumHeights(rs[..|rs| - 1]) + rs[|rs| - 1].height as real
  }

  function SumWidths(rs: seq<Rect>): real
  {
    if rs == [] then 0.0 else SumWidths(rs[..|rs| - 1]) + rs[|rs| - 1].width as real
  }

  /** Adds up the heights and the widths of the rectangles, one at a time. */
  method AccumulateSizes(rs: seq<Rect>) returns (sumHeight: real, sumWidth: real)
    ensures sumHeight == SumHeights(rs) && sumWidth == SumWidths(rs)
  {
    sumHeight, sumWidth := 0.0, 0.0;
    for i := 0 to |rs|
      invariant sumHeight == SumHeights(rs[..i])
      invariant sumWidth == SumWidths(rs[..i])
    {
      assert rs[..i + 1][..i] == rs[..i];
      sumHeight := sumHeight + rs[i].height as real;
      sumWidth := sumWidth + rs[i].width as real;
    }
    assert rs[..|rs|] == rs;
  }

  /** Mean height and mean width of the rectangles; 0 for an empty list. */
  function MeanHeight(rs: seq<Rect>): (m: real)
    ensures |rs| > 0 ==> m * |rs| as real == SumHeights(rs)
    ensures |rs| == 0 ==> m == 0.0
  {
    if |rs| > 0 then SumHeights(rs) / |rs| as real else 0.0
  }

  function MeanWidth(rs: seq<Rect>): (m: real)
    ensures |rs| > 0 ==> m * |rs| as real == SumWidths(rs)
    ensures |rs| == 0 ==> m == 0.0
  {
    if |rs| > 0 then SumWidths(rs) / |rs| as real else 0.0
  }

  /** The features of a face of rectangle `face` in which the eye detector
      found `eyes` and the smile detector found `smiles`. */
  function Summarize(face: Rect, eyes: seq<Rect>, smiles: seq<Rect>): (f: Features)
    ensures f.hasSmile <==> |smiles| > 0
    ensures f.hasBothEyes <==> |eyes| >= 2
    ensures f.hasOneEye <==> |eyes| == 1
    ensures f.hasNoEyes <==> |eyes| == 0
    ensures |eyes| == 0 ==> f.eyeAspectRatio == 0.0 && f.relativeEyeSize == 0.0
    ensures |smiles| == 0 ==> f.smileWidth == 0.0 && f.smileHeight == 0.0
    ensures f.smileIntensity == |smiles| as real
  {
    var avgEyeHeight := MeanHeight(eyes);
    var avgEyeWidth := MeanWidth(eyes);
    Features(
      hasSmile := |smiles| > 0,
      hasBothEyes := |eyes| >= 2,
      hasOneEye := |eyes| == 1,
      hasNoEyes := |eyes| == 0,
      eyeAspectRatio := if avgEyeWidth > 0.0 then avgEyeHeight / avgEyeWidth else 0.0,
      relativeEyeSize := if face.height > 0 then avgEyeHeight / face.height as real else 0.0,
      smileWidth := MeanWidth(smiles),
      smileHeight := MeanHeight(smiles),
      smileIntensity := |smiles| as real)
  }

  /** Exactly one of the three eye flags holds of any summary. */
  lemma EyeFlagsPartition(face: Rect, eyes: seq<Rect>, smiles: seq<Rect>)
    ensures var f := Summarize(face, eyes, smiles);
      (f.hasBothEyes || f.hasOneEye || f.hasNoEyes) &&
      !(f.hasBothEyes && f.hasOneEye) && !(f.hasBothEyes && f.hasNoEyes) && !(f.hasOneEye && f.hasNoEyes)
  {
  }

  /** The ratio of two means over the same positive count, taken when the
      second is positive, times the second total is the first total. */
  lemma MeansDivideAsTotals(meanA: real, meanB: real, a: real, b: real, n: real, ratio: real)
    requires n > 0.0 && b > 0.0 && meanA * n == a && meanB * n == b
    requires ratio == if meanB > 0.0 then meanA / meanB else 0.0
    ensures ratio * b == a
  {
    assert meanB > 0.0;
    assert ratio * meanB == meanA;
    assert ratio * b == ratio * (meanB * n) == (ratio * meanB) * n;
  }

  /** A mean over `n` divided by `h`, times `n * h`, is the total again. */
  lemma MeanOverExtent(total: real, n: real, h: real)
    requires n > 0.0 && h > 0.0
    ensures (total / n) / h * (n * h) == total
  {
    assert (total / n) / h * h == total / n;
  }

  /** With eyes found, the relative eye size is the mean eye height over the
      face height; a face of no height gets 0. */
  lemma RelativeEyeSizeIsMeanOverHeight(face: Rect, eyes: seq<Rect>, smiles: seq<Rect>)
    ensures |eyes| > 0 && face.height > 0 ==>
      Summarize(face, eyes, smiles).relativeEyeSize * (|eyes| as real * face.height as real) == SumHeights(eyes)
    ensures face.height <= 0 ==> Summarize(face, eyes, smiles).relativeEyeSize == 0.0
  {
    if |eyes| > 0 && face.height > 0 {
      var rel := Summarize(face, eyes, smiles).relativeEyeSize;
      assert rel == (SumHeights(eyes) / |eyes| as real) / face.height as real;
      MeanOverExtent(SumHeights(eyes), |eyes| as real, face.height as real);
    }
  }

  /** The eye aspect ratio is the mean eye height over the mean eye width,
      which is the total height over the total width. */
  lemma EyeAspectRatioIsHeightOverWidth(face: Rect, eyes: seq<Rect>, smiles: seq<Rect>)
    requires SumWidths(eyes) > 0.0
    ensures Summarize(face, eyes, smiles).eyeAspectRatio * SumWidths(eyes) == SumHeights(eyes)
  {
    assert |eyes| > 0;
    MeansDivideAsTotals(MeanHeight(eyes), MeanWidth(eyes), SumHeights(eyes), SumWidths(eyes), |eyes| as real,
                        Summarize(face, eyes, smiles).eyeAspectRatio);
  }

  /** When the eye widths add up to nothing the eye aspect ratio is 0. */
  lemma EyeAspectRatioWithoutWidth(face: Rect, eyes: seq<Rect>, smiles: seq<Rect>)
    requires SumWidths(eyes) <= 0.0
    ensures Summarize(face, eyes, smiles).eyeAspectRatio == 0.0
  {
    if |eyes| > 0 {
      assert MeanWidth(eyes) == SumWidths(eyes) / |eyes| as real;
    }
  }

  /** With smiles found, the smile sizes are the mean smile width and the
      mean smile height. */
  lemma SmileSizesAreMeans(face: Rect, eyes: seq<Rect>, smiles: seq<Rect>)
    ensures |smiles| > 0 ==>
      Summarize(face, eyes, smiles).smileWidth * |smiles| as real == SumWidths(smiles) &&
      Summarize(face, eyes, smiles).smileHeight * |smiles| as real == SumHeights(smiles)
  {
  }

  /** Rectangles each at most `bound` high, none of negative height, add up to
      between 0 and `bound` times their number. */
  lemma {:induction false} SumHeightsBounds(rs: seq<Rect>, bound: int)
    requires forall i :: 0 <= i < |rs| ==> 0 <= rs[i].height <= bound
    ensures 0.0 <= SumHeights(rs) <= |rs| as real * bound as real
  {
    if rs != [] {
      SumHeightsBounds(rs[..|rs| - 1], bound);
    }
  }

  /** A total of at most `n` times `bound`, averaged over `n` and divided by
      `bound`, lies in [0, 1]. */
  lemma MeanOverBound(total: real, n: real, bound: real)
    requires n > 0.0 && bound > 0.0 && 0.0 <= total <= n * bound
    ensures 0.0 <= total / n / bound <= 1.0
  {
    var mean := total / n;
    assert mean * n == total;
    assert mean <= bound;
    assert (total / n / bound) * bound == mean;
  }

  /** Eyes found inside the face region have a relative size between 0 and 1:
      the mean eye is no taller than the face. */
  lemma RelativeEyeSizeBounds(face: Rect, eyes: seq<Rect>, smiles: seq<Rect>)
    requires face.width >= 0 && face.height > 0
    requires forall i :: 0 <= i < |eyes| ==> Inside(eyes[i], Image(face.width, face.height))
    ensures 0.0 <= Summarize(face, eyes, smiles).relativeEyeSize <= 1.0
  {
    if |eyes| > 0 {
      SumHeightsBounds(eyes, face.height);
      MeanOverBound(SumHeights(eyes), |eyes| as real, face.height as real);
    }
  }

  /** What the rule chain decides for a face: a label and the confidence in
      it. */
  datatype Decision = Decision(emotion: Emotion, confidence: real)

  /** The ordered rule chain: the first rule whose condition holds decides the
      label and the confidence. */
  function Classify(f: Features): (r: Decision)
    ensures 0.0 <= r.confidence <= 1.0
    ensures r.emotion != Disgusted
  {
    if f.hasSmile && f.smileIntensity >= 1.0 then
      Decision(Happy, Clamp(0.6 + f.smileIntensity * 0.1, 0.0, 1.0))
    else if f.hasBothEyes && f.relativeEyeSize > 0.15 then
      Decision(Surprised, Clamp(0.55 + f.relativeEyeSize * 2.0, 0.0, 1.0))
    else if (f.hasNoEyes || f.hasOneEye) && !f.hasSmile then
      Decision(Angry, 0.55)
    else if f.hasBothEyes && !f.hasSmile && f.relativeEyeSize < 0.12 then
      Decision(Sad, 0.5)
    else if f.hasBothEyes && f.relativeEyeSize > 0.13 && !f.hasSmile then
      Decision(Fearful, 0.5)
    else
      Decision(Neutral, 0.6)
  }

  /** The label and confidence of a face, from its detections. */
  function ClassifyFace(face: Rect, eyes: seq<Rect>, smiles: seq<Rect>): Decision
  {
    Classify(Summarize(face, eyes, smiles))
  }

  /** Any smile makes the face Happy, whatever the eyes, with confidence
      0.6 + 0.1 per smile, at most 1. */
  lemma HappyRule(face: Rect, eyes: seq<Rect>, smiles: seq<Rect>)
    ensures ClassifyFace(face, eyes, smiles).emotion == Happy <==> |smiles| > 0
    ensures |smiles| > 0 ==>
      ClassifyFace(face, eyes, smiles).confidence == if |smiles| >= 4 then 1.0 else 0.6 + 0.1 * |smiles| as real
  {
  }

  /** Without a smile, two or more eyes of relative size above 0.15 make the
      face Surprised, with confidence 0.55 + 2 * size, at most 1. */
  lemma SurprisedRule(face: Rect, eyes: seq<Rect>, smiles: seq<Rect>)
    ensures var rel := Summarize(face, eyes, smiles).relativeEyeSize;
      ClassifyFace(face, eyes, smiles).emotion == Surprised <==> |smiles| == 0 && |eyes| >= 2 && rel > 0.15
    ensures var rel := Summarize(face, eyes, smiles).relativeEyeSize;
      ClassifyFace(face, eyes, smiles).emotion == Surprised ==>
        ClassifyFace(face, eyes, smiles).confidence == if rel >= 0.225 then 1.0 else 0.55 + 2.0 * rel
  {
  }

  /** Without a smile, fewer than two eyes make the face Angry at 0.55. */
  lemma AngryRule(face: Rect, eyes: seq<Rect>, smiles: seq<Rect>)
    ensures ClassifyFace(face, eyes, smiles).emotion == Angry <==> |smiles| == 0 && |eyes| < 2
    ensures ClassifyFace(face, eyes, smiles).emotion == Angry ==> ClassifyFace(face, eyes, smiles).confidence == 0.55
  {
  }

  /** Without a smile, two or more eyes of relative size below 0.12 make the
      face Sad at 0.5. */
  lemma SadRule(face: Rect, eyes: seq<Rect>, smiles: seq<Rect>)
    ensures var rel := Summarize(face, eyes, smiles).relativeEyeSize;
      ClassifyFace(face, eyes, smiles).emotion == Sad <==> |smiles| == 0 && |eyes| >= 2 && rel < 0.12
    ensures ClassifyFace(face, eyes, smiles).emotion == Sad ==> ClassifyFace(face, eyes, smiles).confidence == 0.5
  {
  }

  /** Without a smile, two or more eyes of relative size in (0.13, 0.15] make
      the face Fearful at 0.5. */
  lemma FearfulRule(face: Rect, eyes: seq<Rect>, smiles: seq<Rect>)
    ensures var rel := Summarize(face, eyes, smiles).relativeEyeSize;
      ClassifyFace(face, eyes, smiles).emotion == Fearful <==> |smiles| == 0 && |eyes| >= 2 && 0.13 < rel <= 0.15
    ensures ClassifyFace(face, eyes, smiles).emotion == Fearful ==> ClassifyFace(face, eyes, smiles).confidence == 0.5
  {
  }

  /** Without a smile, two or more eyes of relative size in [0.12, 0.13] leave
      the face Neutral at 0.6. */
  lemma NeutralRule(face: Rect, eyes: seq<Rect>, smiles: seq<Rect>)
    ensures var rel := Summarize(face, eyes, smiles).relativeEyeSize;
      ClassifyFace(face, eyes, smiles).emotion == Neutral <==> |smiles| == 0 && |eyes| >= 2 && 0.12 <= rel <= 0.13
    ensures ClassifyFace(face, eyes, smiles).emotion == Neutral ==> ClassifyFace(face, eyes, smiles).confidence == 0.6
  {
  }

  /** Worked cases: two smiles give Happy at 0.8; two eyes of relative size
      0.2 and no smile give Surprised at 0.95; no eyes and no smile give Angry
      at 0.55; two eyes of relative size 0.05 give Sad at 0.5. */
  lemma Scenarios()
    ensures Classify(Features(true, false, false, true, 0.0, 0.0, 30.0, 30.0, 2.0)) == Decision(Happy, 0.8)
    ensures Classify(Features(false, true, false, false, 1.0, 0.2, 0.0, 0.0, 0.0)) == Decision(Surprised, 0.95)
    ensures Classify(Features(false, false, false, true, 0.0, 0.0, 0.0, 0.0, 0.0)) == Decision(Angry, 0.55)
    ensures Classify(Features(false, true, false, false, 1.0, 0.05, 0.0, 0.0, 0.0)) == Decision(Sad, 0.5)
  {
  }

  /** A worked case from rectangles: two 30 by 20 eyes in a 100 by 100 face
      and no smile give a relative eye size of 0.2, hence Surprised at
      0.55 + 2 * 0.2 = 0.95. */
  lemma SurprisedFromRectangles()
    ensures ClassifyFace(Rect(0, 0, 100, 100), [Rect(10, 20, 30, 20), Rect(60, 20, 30, 20)], [])
      == Decision(Surprised, 0.95)
  {
    var eyes := [Rect(10, 20, 30, 20), Rect(60, 20, 30, 20)];
    assert eyes[..1][..0] == [];
    assert SumHeights(eyes) == 40.0;
    assert Summarize(Rect(0, 0, 100, 100), eyes, []).relativeEyeSize == 0.2;
  }
}
