/** Value types shared by the tracker: the emotion labels, the per-face
    emotion record and the axis-aligned rectangles the detectors return. */
module Types {

  /** The seven labels a face can be given. Disgusted is declared but no
      classification rule produces it. */
  datatype Emotion = Neutral | Happy | Sad | Angry | Surprised | Fearful | Disgusted

  /** Every label, in declaration order (the order of the underlying uint8). */
  const AllEmotions: seq<Emotion> := [Neutral, Happy, Sad, Angry, Surprised, Fearful, Disgusted]

  /** The enumeration has exactly seven labels, all distinct. */
  lemma AllEmotionsComplete()
    ensures |AllEmotions| == 7
    ensures forall e: Emotion :: e in AllEmotions
    ensures forall i, j :: 0 <= i < j < |AllEmotions| ==> AllEmotions[i] != AllEmotions[j]
  {
    forall e: Emotion ensures e in AllEmotions {
      match e
      case Neutral => assert AllEmotions[0] == e;
      case Happy => assert AllEmotions[1] == e;
      case Sad => assert AllEmotions[2] == e;
      case Angry => assert AllEmotions[3] == e;
      case Surprised => assert AllEmotions[4] == e;
      case Fearful => assert AllEmotions[5] == e;
      case Disgusted => assert AllEmotions[6] == e;
    }
  }

  /** A value that may be absent. */
  datatype Option<T> = None | Some(value: T)

  /** A two-component vector (an engine FVector2D); coordinates are reals. */
  datatype Vec2 = Vec2(x: real, y: real)

  /** One face's result: its label, the confidence in it, the centre of the
      face rectangle in full-resolution pixels and the face width. */
  datatype EmotionData = EmotionData(emotion: Emotion, confidence: real, faceCenter: Vec2, faceSize: real)

  /** The record every field of which the source initialises by default. */
  const DefaultEmotionData: EmotionData := EmotionData(Neutral, 0.0, Vec2(0.0, 0.0), 0.0)

  /** An OpenCV rectangle: top-left corner and extent, in pixels. */
  datatype Rect = Rect(x: int, y: int, width: int, height: int)

  /** A grayscale image, of which only the size matters to the model. */
  datatype Image = Image(cols: nat, rows: nat)

  /** OpenCV's `Mat::empty()`: an image with no pixels. */
  predicate IsEmpty(img: Image)
  {
    img.cols == 0 || img.rows == 0
  }

  /** `r` addresses only pixels of `img`: the condition OpenCV checks before
      it extracts a region of interest. */
  predicate Inside(r: Rect, img: Image)
  {
    0 <= r.x && 0 <= r.width && r.x + r.width <= img.cols &&
    0 <= r.y && 0 <= r.height && r.y + r.height <= img.rows
  }

  /** `FMath::Max` and `FMath::Min` on integers. */
  function Max(a: int, b: int): int { if a >= b then a else b }
  function Min(a: int, b: int): int { if a <= b then a else b }

  /** `FMath::Clamp(v, lo, hi)`: lo when v is below it, hi when v is above it. */
  function Clamp(v: real, lo: real, hi: real): (r: real)
    requires lo <= hi
    ensures lo <= r <= hi
    ensures lo <= v <= hi ==> r == v
  {
    if v < lo then lo else if v < hi then v else hi
  }
}
