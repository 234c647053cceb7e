/** Face-rectangle geometry of one processing cycle: faces found on the
    half-resolution image are doubled back to full resolution, their corner is
    moved to non-negative coordinates, their extent is cut at the frame's right
    and bottom edges, and they are dropped when the width or height left is not
    positive; the smile search covers the lower half of a face. */
module Geometry {
  import opened Types

  /** A face as the detectors report it: the face rectangle (at half
      resolution when it comes from the face detector, at full resolution once
      kept) with the eye and smile rectangles found inside it. */
  datatype FaceDetection = FaceDetection(face: Rect, eyes: seq<Rect>, smiles: seq<Rect>)

  /** The frame region `r` at full resolution covers: non-empty and inside. */
  predicate Kept(r: Rect, gray: Image)
  {
    Inside(r, gray) && r.width > 0 && r.height > 0
  }

  /** Doubles a half-resolution face rectangle, then moves its corner to
      non-negative coordinates and cuts its extent at the frame's right and
      bottom edges; None when the width or the height left is not positive. */
  function ScaleAndClamp(face: Rect, gray: Image): (r: Option<Rect>)
    ensures r.Some? ==> Kept(r.value, gray)
    ensures r.Some? ==> r.value.x == Max(0, 2 * face.x) && r.value.y == Max(0, 2 * face.y)
  {
    var x := Max(0, 2 * face.x);
    var y := Max(0, 2 * face.y);
    var width := Min(2 * face.width, gray.cols - x);
    var height := Min(2 * face.height, gray.rows - y);
    if width <= 0 || height <= 0 then None else Some(Rect(x, y, width, height))
  }

  /** A face whose doubled rectangle already lies in the frame and is not
      empty comes back unchanged: clamping only touches what sticks out. */
  lemma ScaleAndClampKeepsInsideFaces(face: Rect, gray: Image)
    requires Kept(Rect(2 * face.x, 2 * face.y, 2 * face.width, 2 * face.height), gray)
    ensures ScaleAndClamp(face, gray) == Some(Rect(2 * face.x, 2 * face.y, 2 * face.width, 2 * face.height))
  {
  }

  /** Exactly the faces of positive extent whose doubled corner, moved to
      non-negative coordinates, still lies inside the frame are kept. A corner
      at negative coordinates is moved to the edge, not cut off: the kept
      rectangle then starts at 0 and keeps the doubled extent where the frame
      allows it. */
  lemma ScaleAndClampKeepsExactly(face: Rect, gray: Image)
    ensures ScaleAndClamp(face, gray).Some? <==>
      face.width > 0 && face.height > 0 && Max(0, 2 * face.x) < gray.cols && Max(0, 2 * face.y) < gray.rows
    ensures ScaleAndClamp(face, gray).Some? ==>
      ScaleAndClamp(face, gray).value.width == Min(2 * face.width, gray.cols - Max(0, 2 * face.x)) &&
      ScaleAndClamp(face, gray).value.height == Min(2 * face.height, gray.rows - Max(0, 2 * face.y))
  {
  }

  /** The faces of one cycle that survive ScaleAndClamp, in detection order,
      each with its clamped full-resolution rectangle. */
  function KeptFaces(gray: Image, faces: seq<FaceDetection>): (kept: seq<FaceDetection>)
    ensures |kept| <= |faces|
    ensures forall i :: 0 <= i < |kept| ==> Kept(kept[i].face, gray)
  {
    if faces == [] then []
    else
      KeptFaces(gray, faces[..|faces| - 1]) + KeptOne(faces[|faces| - 1], gray)
  }

  /** The per-face result of ScaleAndClamp, as a list of zero or one faces. */
  function KeptOne(f: FaceDetection, gray: Image): seq<FaceDetection>
  {
    match ScaleAndClamp(f.face, gray)
    case Some(r) => [f.(face := r)]
    case None => []
  }

  /** KeptFaces filters from the front as well as from the back: the first
      face is kept or dropped on its own, and the rest follow in order. */
  lemma {:induction false} KeptFacesCons(gray: Image, f: FaceDetection, faces: seq<FaceDetection>)
    ensures KeptFaces(gray, [f] + faces) == KeptOne(f, gray) + KeptFaces(gray, faces)
    decreases |faces|
  {
    if faces == [] {
      assert [f] + faces == [f];
      assert [f][..0] == [];
    } else {
      var init := faces[..|faces| - 1];
      assert ([f] + faces)[..|faces|] == [f] + init;
      KeptFacesCons(gray, f, init);
    }
  }

  /** Keeping a list of faces each of which survives on its own keeps all of
      them, position by position. */
  lemma {:induction false} KeptFacesAllSurvive(gray: Image, faces: seq<FaceDetection>)
    requires forall i :: 0 <= i < |faces| ==> ScaleAndClamp(faces[i].face, gray).Some?
    ensures |KeptFaces(gray, faces)| == |faces|
    ensures forall i :: 0 <= i < |faces| ==>
      KeptFaces(gray, faces)[i] == faces[i].(face := ScaleAndClamp(faces[i].face, gray).value)
  {
    if faces != [] {
      KeptFacesAllSurvive(gray, faces[..|faces| - 1]);
    }
  }

  /** The region the smile detector searches: the lower half of the face,
      starting at mid-height and as tall as half the face (rounded down). */
  function SmileSearchRegion(faceRoi: Image): (r: Rect)
    ensures Inside(r, faceRoi)
    ensures r.y + r.height == faceRoi.rows || r.y + r.height == faceRoi.rows - 1
    ensures r.width == faceRoi.cols
    ensures r.height == r.y && faceRoi.rows - 1 <= 2 * r.y <= faceRoi.rows
  {
    Rect(0, faceRoi.rows / 2, faceRoi.cols, faceRoi.rows / 2)
  }

  /** The sub-image a region of interest addresses; OpenCV refuses a region
      that is not inside the image. */
  function Crop(img: Image, r: Rect): (roi: Image)
    requires Inside(r, img)
    ensures roi.cols == r.width && roi.rows == r.height
    ensures roi.cols <= img.cols && roi.rows <= img.rows
  {
    Image(r.width, r.height)
  }

  /** The centre of a rectangle, as the face centre of a result is computed:
      equally far from the left and right edges and from the top and bottom. */
  function FaceCenter(r: Rect): (c: Vec2)
    ensures c.x - r.x as real == (r.x + r.width) as real - c.x
    ensures c.y - r.y as real == (r.y + r.height) as real - c.y
    ensures r.width >= 0 && r.height >= 0 ==>
      r.x as real <= c.x <= (r.x + r.width) as real && r.y as real <= c.y <= (r.y + r.height) as real
  {
    Vec2(r.x as real + r.width as real / 2.0, r.y as real + r.height as real / 2.0)
  }

  /** The centre of a kept face lies strictly inside the frame. */
  lemma FaceCenterInFrame(r: Rect, gray: Image)
    requires Kept(r, gray)
    ensures 0.0 < FaceCenter(r).x < gray.cols as real
    ensures 0.0 < FaceCenter(r).y < gray.rows as real
  {
  }
}
