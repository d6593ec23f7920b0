/** The crop-window arithmetic of face cropping
    (backend/app/domain/embedding/face_crop.py). Pixels are not modelled:
    an image is its height and width, a crop is the window it takes and the
    shape it ends with. */
module FaceCrop {
  import opened Wrappers
  import PyNum

  /** A face box `(x, y, w, h)`. */
  datatype Box = Box(x: int, y: int, w: int, h: int)

  /** One face-mesh landmark in normalised coordinates. */
  datatype Landmark = Landmark(x: real, y: real)

  /** The window `image[y1:y2, x1:x2]` is asked for. */
  datatype Window = Window(x1: int, y1: int, x2: int, y2: int)

  /** The result of `crop_face`: the window and the shape `(height, width)`
      of the returned image, or the OpenCV error `resize` raises on an empty
      source or a non-positive target size. */
  datatype Crop = Cropped(window: Window, height: nat, width: nat) | ResizeFailed

  function Max(a: int, b: int): int { if a >= b then a else b }
  function Min(a: int, b: int): int { if a <= b then a else b }

  /** The length of the slice `start:stop` of an axis of length `n`, for a
      start that is not negative (a negative stop counts from the end). */
  function SliceLen(n: nat, start: int, stop: int): (len: nat)
    requires start >= 0
    ensures len <= n
  {
    var s := Min(start, n);
    var e := if stop < 0 then Max(stop + n, 0) else Min(stop, n);
    if e > s then e - s else 0
  }

  /** The window of `crop_face`: the box widened on every side by
      `int(w * margin)` and `int(h * margin)`, clipped to the image. */
  function CropWindow(box: Box, imgH: nat, imgW: nat, margin: real): (win: Window)
    ensures win.x1 >= 0 && win.y1 >= 0 && win.x2 <= imgW && win.y2 <= imgH
  {
    var marginW := PyNum.Trunc(box.w as real * margin);
    var marginH := PyNum.Trunc(box.h as real * margin);
    Window(Max(0, box.x - marginW), Max(0, box.y - marginH),
           Min(imgW, box.x + box.w + marginW), Min(imgH, box.y + box.h + marginH))
  }

  /** A box inside the image, with a margin that is not negative, lies inside
      its window, which is exactly the widened box as far as the image allows;
      the crop then spans the whole window. */
  lemma CropContainsBox(box: Box, imgH: nat, imgW: nat, margin: real)
    requires box.w >= 0 && box.h >= 0 && margin >= 0.0
    requires 0 <= box.x && box.x + box.w <= imgW && 0 <= box.y && box.y + box.h <= imgH
    ensures var win := CropWindow(box, imgH, imgW, margin);
      && win.x1 <= box.x && box.x + box.w <= win.x2 && win.y1 <= box.y && box.y + box.h <= win.y2
      && SliceLen(imgW, win.x1, win.x2) == win.x2 - win.x1 >= box.w
      && SliceLen(imgH, win.y1, win.y2) == win.y2 - win.y1 >= box.h
  {
    assert box.w as real * margin >= 0.0;
    assert box.h as real * margin >= 0.0;
  }

  /** `crop_face`, with `target_size` given as `(width, height)`. */
  function CropFace(box: Box, imgH: nat, imgW: nat, margin: real, targetSize: Option<(int, int)>): (r: Crop)
    ensures targetSize.None? ==> r.Cropped?
    ensures r.Cropped? ==> r.window == CropWindow(box, imgH, imgW, margin)
    ensures r.Cropped? && targetSize.Some? ==> r.width == targetSize.value.0 && r.height == targetSize.value.1
    ensures r.Cropped? && targetSize.None? ==>
      r.height == SliceLen(imgH, r.window.y1, r.window.y2) && r.width == SliceLen(imgW, r.window.x1, r.window.x2)
  {
    var win := CropWindow(box, imgH, imgW, margin);
    var h := SliceLen(imgH, win.y1, win.y2);
    var w := SliceLen(imgW, win.x1, win.x2);
    match targetSize
    case None => Cropped(win, h, w)
    case Some((tw, th)) =>
      if h == 0 || w == 0 || tw <= 0 || th <= 0 then ResizeFailed else Cropped(win, th, tw)
  }

  /** Resizing fails only on an empty window or a non-positive target; a box
      inside the image with positive sides always crops. */
  lemma CropFaceResizes(box: Box, imgH: nat, imgW: nat, margin: real, tw: int, th: int)
    requires tw > 0 && th > 0
    requires box.w > 0 && box.h > 0 && margin >= 0.0
    requires 0 <= box.x && box.x + box.w <= imgW && 0 <= box.y && box.y + box.h <= imgH
    ensures CropFace(box, imgH, imgW, margin, Some((tw, th))) == Cropped(CropWindow(box, imgH, imgW, margin), th, tw)
  {
    CropContainsBox(box, imgH, imgW, margin);
  }

  /** `min` of a non-empty list. */
  function MinOf(s: seq<real>): (m: real)
    requires |s| > 0
    ensures forall i :: 0 <= i < |s| ==> m <= s[i]
    ensures exists i :: 0 <= i < |s| && m == s[i]
  {
    if |s| == 1 then s[0]
    else
      var rest := MinOf(s[..|s| - 1]);
      if s[|s| - 1] < rest then s[|s| - 1] else rest
  }

  /** `max` of a non-empty list. */
  function MaxOf(s: seq<real>): (m: real)
    requires |s| > 0
    ensures forall i :: 0 <= i < |s| ==> s[i] <= m
    ensures exists i :: 0 <= i < |s| && m == s[i]
  {
    if |s| == 1 then s[0]
    else
      var rest := MaxOf(s[..|s| - 1]);
      if s[|s| - 1] > rest then s[|s| - 1] else rest
  }

  /** The pixel coordinates of the landmarks along one axis. */
  function Scaled(lms: seq<Landmark>, horizontal: bool, dim: nat): (r: seq<real>)
    ensures |r| == |lms|
  {
    seq(|lms|, i requires 0 <= i < |lms| => (if horizontal then lms[i].x else lms[i].y) * dim as real)
  }

  /** The box `extract_face_from_landmarks` derives: from the truncated
      smallest to the truncated largest coordinate. */
  function LandmarkBox(lms: seq<Landmark>, imgH: nat, imgW: nat): (box: Box)
    requires |lms| > 0
    ensures box.w >= 0 && box.h >= 0
  {
    var xs, ys := Scaled(lms, true, imgW), Scaled(lms, false, imgH);
    var x1, y1 := PyNum.Trunc(MinOf(xs)), PyNum.Trunc(MinOf(ys));
    var x2, y2 := PyNum.Trunc(MaxOf(xs)), PyNum.Trunc(MaxOf(ys));
    PyNum.TruncMonotone(MinOf(xs), MaxOf(xs));
    PyNum.TruncMonotone(MinOf(ys), MaxOf(ys));
    Box(x1, y1, x2 - x1, y2 - y1)
  }

  /** `extract_face_from_landmarks`: `None` without landmarks, else the crop
      of their box with margin 0.2. */
  function ExtractFaceFromLandmarks(imgH: nat, imgW: nat, lms: seq<Landmark>, targetSize: (int, int)): (r: Option<Crop>)
    ensures r.None? <==> lms == []
    ensures r.Some? ==> r.value == CropFace(LandmarkBox(lms, imgH, imgW), imgH, imgW, 0.2, Some(targetSize))
  {
    if lms == [] then None
    else Some(CropFace(LandmarkBox(lms, imgH, imgW), imgH, imgW, 0.2, Some(targetSize)))
  }

  /** Every landmark falls inside the derived box, up to the truncation of
      its coordinates. */
  lemma LandmarksInBox(lms: seq<Landmark>, imgH: nat, imgW: nat, i: nat)
    requires i < |lms|
    ensures var box := LandmarkBox(lms, imgH, imgW);
      var px := lms[i].x * imgW as real;
      box.x <= PyNum.Trunc(px) <= box.x + box.w
  {
    var xs := Scaled(lms, true, imgW);
    assert xs[i] == lms[i].x * imgW as real;
    PyNum.TruncMonotone(MinOf(xs), xs[i]);
    PyNum.TruncMonotone(xs[i], MaxOf(xs));
  }

  /** `get_eye_landmarks`: with at least 468 landmarks, the midpoints of 33
      and 133 (left eye) and of 362 and 263 (right eye). */
  function GetEyeLandmarks(lms: seq<Landmark>): (r: Option<((real, real), (real, real))>)
    ensures r.None? <==> |lms| < 468
    ensures r.Some? ==>
      && r.value.0 == ((lms[33].x + lms[133].x) / 2.0, (lms[33].y + lms[133].y) / 2.0)
      && r.value.1 == ((lms[362].x + lms[263].x) / 2.0, (lms[362].y + lms[263].y) / 2.0)
  {
    if |lms| < 468 then None
    else
      var left := ((0.0 + lms[33].x + lms[133].x) / 2.0, (0.0 + lms[33].y + lms[133].y) / 2.0);
      var right := ((0.0 + lms[362].x + lms[263].x) / 2.0, (0.0 + lms[362].y + lms[263].y) / 2.0);
      Some((left, right))
  }

  /** Each eye centre lies between its two landmarks. */
  lemma EyesBetween(lms: seq<Landmark>)
    requires |lms| >= 468
    ensures var eyes := GetEyeLandmarks(lms).value;
      && MinR(lms[33].x, lms[133].x) <= eyes.0.0 <= MaxR(lms[33].x, lms[133].x)
      && MinR(lms[362].x, lms[263].x) <= eyes.1.0 <= MaxR(lms[362].x, lms[263].x)
  {
  }

  function MinR(a: real, b: real): real { if a <= b then a else b }
  function MaxR(a: real, b: real): real { if a >= b then a else b }

  /** What `FaceCropper.crop` returns: the aligned face (rotation by OpenCV)
      at the target size, or the plain crop. */
  datatype Face = Aligned(leftEye: (real, real), rightEye: (real, real), height: int, width: int) | Plain(crop: Crop)

  /** A `FaceCropper` and its settings. */
  datatype FaceCropper = FaceCropper(margin: real, targetSize: (int, int), align: bool)

  const DefaultCropper := FaceCropper(0.3, (224, 224), true)

  /** `FaceCropper.crop`: aligned on the eye landmarks, scaled to pixels, when
      alignment is on and the eyes can be found; the plain crop otherwise. */
  function CropWith(c: FaceCropper, imgH: nat, imgW: nat, box: Box, landmarks: Option<seq<Landmark>>): (r: Face)
    ensures r.Aligned? <==> c.align && landmarks.Some? && |landmarks.value| >= 468
    ensures r.Aligned? ==> r.height == c.targetSize.1 && r.width == c.targetSize.0
    ensures r.Plain? ==> r.crop == CropFace(box, imgH, imgW, c.margin, Some(c.targetSize))
  {
    var eyes := if c.align && landmarks.Some? && landmarks.value != [] then GetEyeLandmarks(landmarks.value) else None;
    match eyes
    case Some((l, rt)) =>
      Aligned((l.0 * imgW as real, l.1 * imgH as real), (rt.0 * imgW as real, rt.1 * imgH as real),
              c.targetSize.1, c.targetSize.0)
    case None => Plain(CropFace(box, imgH, imgW, c.margin, Some(c.targetSize)))
  }
}
