/** Face-count validation and image-quality flags
    (backend/app/domain/expression/quality_gate.py). The blur score
    (variance of the Laplacian) and the mean brightness are measured by
    OpenCV and NumPy; here they are inputs. */
module QualityGate {
  import opened Wrappers
  import opened Text
  import opened ResultModels
  import opened Errors
  import PyNum
  import Config

  /** A face bounding box `(x, y, w, h)` in pixels. */
  datatype Box = Box(x: int, y: int, w: int, h: int)

  /** `check_face_size`: the image shape plays no part. */
  function CheckFaceSize(box: Box, imgH: int, imgW: int, minSize: Option<int>, settings: Config.Settings): (ok: bool)
    ensures ok <==> box.w >= minSize.GetOr(settings.minFaceSize) && box.h >= minSize.GetOr(settings.minFaceSize)
  {
    var min := minSize.GetOr(settings.minFaceSize);
    box.w >= min && box.h >= min
  }

  /** The size is compared inclusively: a box exactly `min_size` wide and
      high passes, one pixel less on either side fails, and the image shape
      never matters. */
  lemma FaceSizeBoundary(box: Box, imgH: int, imgW: int, imgH': int, imgW': int, min: int)
    ensures CheckFaceSize(Box(box.x, box.y, min, min), imgH, imgW, Some(min), Config.Defaults())
    ensures !CheckFaceSize(Box(box.x, box.y, min - 1, box.h), imgH, imgW, Some(min), Config.Defaults())
    ensures !CheckFaceSize(Box(box.x, box.y, box.w, min - 1), imgH, imgW, Some(min), Config.Defaults())
    ensures CheckFaceSize(box, imgH, imgW, Some(min), Config.Defaults())
            == CheckFaceSize(box, imgH', imgW', Some(min), Config.Defaults())
  {
  }

  function Abs(x: real): real {
    if x < 0.0 then -x else x
  }

  /** The distance, along one axis, between the centre of a box spanning
      `[start, start + size)` and the centre of an image of size `dim`. */
  function Offset(start: int, size: int, dim: int): real {
    Abs((start as real + size as real / 2.0) - dim as real / 2.0)
  }

  /** `check_face_centered`: each centre offset strictly below
      `0.3·dim + margin·dim`. */
  function CheckFaceCentered(box: Box, imgH: int, imgW: int, margin: real): (ok: bool)
    ensures ok <==> Offset(box.x, box.w, imgW) < imgW as real * 0.3 + imgW as real * margin
                    && Offset(box.y, box.h, imgH) < imgH as real * 0.3 + imgH as real * margin
  {
    Abs((box.x as real + box.w as real / 2.0) - imgW as real / 2.0) < imgW as real * 0.3 + imgW as real * margin
    && Abs((box.y as real + box.h as real / 2.0) - imgH as real / 2.0) < imgH as real * 0.3 + imgH as real * margin
  }

  /** A box centred on a non-empty image is centred whatever its size, for
      any margin that is not negative; and the test is strict: a box whose
      offset equals the allowance on either axis is not centred. */
  lemma CenteredBox(box: Box, imgH: int, imgW: int, margin: real)
    requires imgH > 0 && imgW > 0 && margin >= 0.0
    ensures Offset(box.x, box.w, imgW) == 0.0 && Offset(box.y, box.h, imgH) == 0.0
            ==> CheckFaceCentered(box, imgH, imgW, margin)
    ensures Offset(box.x, box.w, imgW) == imgW as real * 0.3 + imgW as real * margin
            ==> !CheckFaceCentered(box, imgH, imgW, margin)
  {
  }

  /** The test boxes on a 640×480 image with the default margin: one near
      the centre passes, one in the top-left corner does not. */
  lemma CenteredExamples()
    ensures CheckFaceCentered(Box(220, 140, 200, 200), 480, 640, 0.1)
    ensures !CheckFaceCentered(Box(0, 0, 100, 100), 480, 640, 0.1)
  {
  }

  /** `check_image_quality` on the measured blur score and brightness; with
      no box the two face flags keep their default `True`. */
  function CheckImageQuality(blurScore: real, brightness: real, box: Option<Box>, imgH: int, imgW: int,
                             settings: Config.Settings): (q: QualityResult)
    ensures q.blurScore == blurScore && q.brightnessScore == brightness
    ensures q.isBlurry <==> blurScore < settings.blurThreshold
    ensures q.isDark <==> brightness < settings.brightnessMin
    ensures q.isBright <==> brightness > settings.brightnessMax
    ensures box.None? ==> q.faceSizeOk && q.faceCentered
    ensures box.Some? ==> q.faceSizeOk == CheckFaceSize(box.value, imgH, imgW, None, settings)
                          && q.faceCentered == CheckFaceCentered(box.value, imgH, imgW, 0.1)
  {
    var isBlurry := blurScore < settings.blurThreshold;
    var isDark := brightness < settings.brightnessMin;
    var isBright := brightness > settings.brightnessMax;
    var sizeOk := if box.Some? then CheckFaceSize(box.value, imgH, imgW, None, settings) else true;
    var centered := if box.Some? then CheckFaceCentered(box.value, imgH, imgW, 0.1) else true;
    QualityResult(!isBlurry && !isDark && !isBright && sizeOk && centered,
                  isBlurry, isDark, isBright, sizeOk, centered, blurScore, brightness)
  }

  /** `is_valid` holds iff all five checks pass, that is iff `issues` is empty. */
  lemma ValidIffNoIssues(blurScore: real, brightness: real, box: Option<Box>, imgH: int, imgW: int,
                         settings: Config.Settings)
    ensures var q := CheckImageQuality(blurScore, brightness, box, imgH, imgW, settings);
      (q.isValid <==> !q.isBlurry && !q.isDark && !q.isBright && q.faceSizeOk && q.faceCentered)
      && (q.isValid <==> Issues(q) == [])
  {
  }

  /** `validate_face_count`: `None` when it passes. */
  function ValidateFaceCount(numFaces: int, settings: Config.Settings): (r: Option<AppError>)
    ensures r.None? <==> numFaces != 0 && numFaces <= settings.maxFaces
    ensures numFaces == 0 ==> r == Some(RaiseWith(FaceDetectionKind, NoFaceDetected, "얼굴이 감지되지 않았습니다"))
    ensures numFaces != 0 && numFaces > settings.maxFaces ==>
      r.Some? && r.value.kind == FaceDetectionKind && r.value.code == MultipleFacesDetected
  {
    if numFaces == 0 then Some(RaiseWith(FaceDetectionKind, NoFaceDetected, "얼굴이 감지되지 않았습니다"))
    else if numFaces > settings.maxFaces then
      Some(RaiseWith(FaceDetectionKind, MultipleFacesDetected,
                     IntToString(numFaces) + "명의 얼굴이 감지되었습니다. 한 명만 촬영해 주세요."))
    else None
  }

  /** The error code of each issue name. */
  function IssueCode(k: nat): ErrorCode
    requires k < 5
  {
    if k == 0 then ImageTooBlurry
    else if k == 1 then ImageTooDark
    else if k == 2 then ImageTooBright
    else if k == 3 then FaceTooSmall
    else FaceOutOfFrame
  }

  /** `validate_quality`: the error for the first failing check, in the
      order blurry, dark, bright, too small, off centre. */
  function ValidateQuality(q: QualityResult): (r: Option<AppError>)
    ensures r.Some? ==> r.value.details == map[]
  {
    if q.isBlurry then
      Some(RaiseWith(ImageQualityKind, ImageTooBlurry, "이미지가 흐립니다 (점수: " + PyNum.Format1f(q.blurScore) + ")"))
    else if q.isDark then
      Some(RaiseWith(ImageQualityKind, ImageTooDark,
                     "이미지가 너무 어둡습니다 (밝기: " + PyNum.Format1f(q.brightnessScore) + ")"))
    else if q.isBright then
      Some(RaiseWith(ImageQualityKind, ImageTooBright,
                     "이미지가 너무 밝습니다 (밝기: " + PyNum.Format1f(q.brightnessScore) + ")"))
    else if !q.faceSizeOk then Some(RaiseWith(FaceDetectionKind, FaceTooSmall, "얼굴이 너무 작습니다"))
    else if !q.faceCentered then Some(RaiseWith(FaceDetectionKind, FaceOutOfFrame, "얼굴이 화면 중앙에 있지 않습니다"))
    else None
  }

  /** `validate_quality` raises iff some check fails, and then for the first
      issue `issues` lists: the failing check of lowest position `k` in the
      fixed order, every check before it passing. The three image checks
      raise `ImageQualityError`, the two face checks `FaceDetectionError`. */
  lemma ValidateQualityFirst(q: QualityResult)
    ensures ValidateQuality(q).None? <==> Issues(q) == []
    ensures ValidateQuality(q).Some? ==>
      exists k :: 0 <= k < 5 && Failing(q, k) && (forall j :: 0 <= j < k ==> !Failing(q, j))
        && ValidateQuality(q).value.code == IssueCode(k) && Issues(q)[0] == IssueName(k)
        && ValidateQuality(q).value.kind == (if k < 3 then ImageQualityKind else FaceDetectionKind)
  {
    if q.isBlurry { assert Failing(q, 0); }
    else if q.isDark { assert Failing(q, 1) && !Failing(q, 0); }
    else if q.isBright { assert Failing(q, 2) && !Failing(q, 0) && !Failing(q, 1); }
    else if !q.faceSizeOk { assert Failing(q, 3) && !Failing(q, 0) && !Failing(q, 1) && !Failing(q, 2); }
    else if !q.faceCentered {
      assert Failing(q, 4) && !Failing(q, 0) && !Failing(q, 1) && !Failing(q, 2) && !Failing(q, 3);
    }
  }

  /** A `QualityGate` and its `strict` flag. */
  datatype Gate = Gate(strict: bool)

  /** `QualityGate.check`: the face count first, whatever the mode; then the
      quality, raised on only in strict mode. */
  function Check(gate: Gate, blurScore: real, brightness: real, box: Option<Box>, imgH: int, imgW: int,
                 numFaces: int, settings: Config.Settings): (r: Result<QualityResult, AppError>)
    ensures ValidateFaceCount(numFaces, settings).Some? ==> r == Err(ValidateFaceCount(numFaces, settings).value)
  {
    match ValidateFaceCount(numFaces, settings)
    case Some(e) => Err(e)
    case None =>
      var q := CheckImageQuality(blurScore, brightness, box, imgH, imgW, settings);
      if gate.strict && !q.isValid then
        match ValidateQuality(q)
        case Some(e) => Err(e)
        case None => Ok(q)
      else Ok(q)
  }

  /** Past the face count, a lenient gate never raises, and a strict gate
      raises iff the image is not valid, with the error of its first issue. */
  lemma CheckModes(gate: Gate, blurScore: real, brightness: real, box: Option<Box>, imgH: int, imgW: int,
                   numFaces: int, settings: Config.Settings)
    requires ValidateFaceCount(numFaces, settings).None?
    ensures var q := CheckImageQuality(blurScore, brightness, box, imgH, imgW, settings);
      var r := Check(gate, blurScore, brightness, box, imgH, imgW, numFaces, settings);
      && (!gate.strict ==> r == Ok(q))
      && (gate.strict ==> (r.Err? <==> !q.isValid))
      && (r.Err? ==> Some(r.error) == ValidateQuality(q))
  {
    var q := CheckImageQuality(blurScore, brightness, box, imgH, imgW, settings);
    ValidIffNoIssues(blurScore, brightness, box, imgH, imgW, settings);
    ValidateQualityFirst(q);
  }
}
