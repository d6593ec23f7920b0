/** The error codes, their default messages and the domain error record
    (backend/app/core/errors.py). */
module Errors {
  import opened Wrappers

  datatype ErrorCode =
    | NoFaceDetected | MultipleFacesDetected | FaceTooSmall | FaceOutOfFrame
    | ImageTooBlurry | ImageTooDark | ImageTooBright | ImageInvalidFormat | ImageTooLarge
    | ExpressionNotDetected | ExpressionLowConfidence
    | InternalError | ModelLoadError | DatabaseError | TimeoutError
    | WsConnectionError | WsMessageInvalid | WsSessionExpired

  /** The families the code numbers are grouped in. */
  datatype Category = FaceCategory | ImageCategory | ExpressionCategory | SystemCategory | WebSocketCategory

  /** `ErrorCode.value`. */
  function Value(c: ErrorCode): string {
    match c
    case NoFaceDetected => "E101"
    case MultipleFacesDetected => "E102"
    case FaceTooSmall => "E103"
    case FaceOutOfFrame => "E104"
    case ImageTooBlurry => "E201"
    case ImageTooDark => "E202"
    case ImageTooBright => "E203"
    case ImageInvalidFormat => "E204"
    case ImageTooLarge => "E205"
    case ExpressionNotDetected => "E301"
    case ExpressionLowConfidence => "E302"
    case InternalError => "E401"
    case ModelLoadError => "E402"
    case DatabaseError => "E403"
    case TimeoutError => "E404"
    case WsConnectionError => "E501"
    case WsMessageInvalid => "E502"
    case WsSessionExpired => "E503"
  }

  /** `ErrorCode(s)`: the lookup of a code by its value. */
  function FromValue(s: string): (r: Option<ErrorCode>)
    ensures r.Some? ==> Value(r.value) == s
  {
    if s == "E101" then Some(NoFaceDetected)
    else if s == "E102" then Some(MultipleFacesDetected)
    else if s == "E103" then Some(FaceTooSmall)
    else if s == "E104" then Some(FaceOutOfFrame)
    else if s == "E201" then Some(ImageTooBlurry)
    else if s == "E202" then Some(ImageTooDark)
    else if s == "E203" then Some(ImageTooBright)
    else if s == "E204" then Some(ImageInvalidFormat)
    else if s == "E205" then Some(ImageTooLarge)
    else if s == "E301" then Some(ExpressionNotDetected)
    else if s == "E302" then Some(ExpressionLowConfidence)
    else if s == "E401" then Some(InternalError)
    else if s == "E402" then Some(ModelLoadError)
    else if s == "E403" then Some(DatabaseError)
    else if s == "E404" then Some(TimeoutError)
    else if s == "E501" then Some(WsConnectionError)
    else if s == "E502" then Some(WsMessageInvalid)
    else if s == "E503" then Some(WsSessionExpired)
    else None
  }

  /** Every code is found again from its value, so the values are distinct. */
  lemma ValueRoundTrip(c: ErrorCode)
    ensures FromValue(Value(c)) == Some(c)
  {
    match CategoryOf(c)
    case FaceCategory => FaceRoundTrip(c);
    case ImageCategory => ImageRoundTrip(c);
    case ExpressionCategory => ExpressionRoundTrip(c);
    case SystemCategory => SystemRoundTrip(c);
    case WebSocketCategory => WebSocketRoundTrip(c);
  }

  /** The round trip for the codes of one family; the second character
      tells the families apart. */
  lemma FaceRoundTrip(c: ErrorCode)
    requires CategoryOf(c) == FaceCategory
    ensures FromValue(Value(c)) == Some(c)
  {
    assert Value(c)[1] == '1';
  }

  lemma ImageRoundTrip(c: ErrorCode)
    requires CategoryOf(c) == ImageCategory
    ensures FromValue(Value(c)) == Some(c)
  {
    assert Value(c)[1] == '2';
  }

  lemma ExpressionRoundTrip(c: ErrorCode)
    requires CategoryOf(c) == ExpressionCategory
    ensures FromValue(Value(c)) == Some(c)
  {
    assert Value(c)[1] == '3';
  }

  lemma SystemRoundTrip(c: ErrorCode)
    requires CategoryOf(c) == SystemCategory
    ensures FromValue(Value(c)) == Some(c)
  {
    assert Value(c)[1] == '4';
  }

  lemma WebSocketRoundTrip(c: ErrorCode)
    requires CategoryOf(c) == WebSocketCategory
    ensures FromValue(Value(c)) == Some(c)
  {
    assert Value(c)[1] == '5';
  }

  lemma ValuesDistinct(a: ErrorCode, b: ErrorCode)
    requires a != b
    ensures Value(a) != Value(b)
  {
    ValueRoundTrip(a);
    ValueRoundTrip(b);
  }

  function CategoryOf(c: ErrorCode): Category {
    match c
    case NoFaceDetected | MultipleFacesDetected | FaceTooSmall | FaceOutOfFrame => FaceCategory
    case ImageTooBlurry | ImageTooDark | ImageTooBright | ImageInvalidFormat | ImageTooLarge => ImageCategory
    case ExpressionNotDetected | ExpressionLowConfidence => ExpressionCategory
    case InternalError | ModelLoadError | DatabaseError | TimeoutError => SystemCategory
    case WsConnectionError | WsMessageInvalid | WsSessionExpired => WebSocketCategory
  }

  function CategoryDigit(k: Category): char {
    match k
    case FaceCategory => '1'
    case ImageCategory => '2'
    case ExpressionCategory => '3'
    case SystemCategory => '4'
    case WebSocketCategory => '5'
  }

  /** Every value is "E" followed by three digits, the first naming the family. */
  lemma ValueFormat(c: ErrorCode)
    ensures |Value(c)| == 4 && Value(c)[0] == 'E'
    ensures Value(c)[1] == CategoryDigit(CategoryOf(c))
    ensures forall i :: 1 <= i < 4 ==> '0' <= Value(c)[i] <= '9'
  {
  }

  /** `ERROR_MESSAGES[c]`: the table has an entry for every code. */
  function DefaultMessage(c: ErrorCode): string {
    match c
    case NoFaceDetected => "얼굴이 감지되지 않았습니다. 카메라를 정면으로 바라봐 주세요."
    case MultipleFacesDetected => "여러 명의 얼굴이 감지되었습니다. 한 명만 촬영해 주세요."
    case FaceTooSmall => "얼굴이 너무 작습니다. 카메라에 더 가까이 다가와 주세요."
    case FaceOutOfFrame => "얼굴이 화면 밖에 있습니다. 화면 중앙에 위치해 주세요."
    case ImageTooBlurry => "이미지가 흐립니다. 카메라를 고정하고 다시 촬영해 주세요."
    case ImageTooDark => "이미지가 너무 어둡습니다. 밝은 곳에서 다시 촬영해 주세요."
    case ImageTooBright => "이미지가 너무 밝습니다. 조명을 조절해 주세요."
    case ImageInvalidFormat => "지원하지 않는 이미지 형식입니다."
    case ImageTooLarge => "이미지 크기가 너무 큽니다."
    case ExpressionNotDetected => "표정을 인식하지 못했습니다. 다시 시도해 주세요."
    case ExpressionLowConfidence => "표정 인식 신뢰도가 낮습니다. 표정을 더 뚜렷하게 지어주세요."
    case InternalError => "서버 내부 오류가 발생했습니다. 잠시 후 다시 시도해 주세요."
    case ModelLoadError => "AI 모델 로딩 중 오류가 발생했습니다."
    case DatabaseError => "데이터베이스 오류가 발생했습니다."
    case TimeoutError => "요청 시간이 초과되었습니다."
    case WsConnectionError => "WebSocket 연결 오류가 발생했습니다."
    case WsMessageInvalid => "잘못된 메시지 형식입니다."
    case WsSessionExpired => "세션이 만료되었습니다. 다시 연결해 주세요."
  }

  /** The fallback of `ERROR_MESSAGES.get`: never reached, since every code has an entry. */
  const UnknownErrorMessage := "알 수 없는 오류"

  lemma DefaultMessageDefined(c: ErrorCode)
    ensures DefaultMessage(c) != "" && DefaultMessage(c) != UnknownErrorMessage
  {
  }

  /** The exception classes deriving from `BeautyInsideError`. */
  datatype ErrorKind = BaseKind | FaceDetectionKind | ImageQualityKind | ExpressionKind | SystemKind | WebSocketKind

  /** A raised `BeautyInsideError` (or subclass): class, code, message, details. */
  datatype AppError = AppError(kind: ErrorKind, code: ErrorCode, message: string, details: map<string, string>)

  /** The constructor: `message or ERROR_MESSAGES.get(code, …)` and `details or {}`. */
  function NewError(kind: ErrorKind, code: ErrorCode, message: Option<string>, details: Option<map<string, string>>): (e: AppError)
    ensures e.kind == kind && e.code == code
  {
    var m := if message.Some? && message.value != "" then message.value else DefaultMessage(code);
    var d := if details.Some? then details.value else map[];
    AppError(kind, code, m, d)
  }

  /** An error raised with a message of its own keeps it; without one, or with
      an empty one, it carries its code's default; it never carries "". */
  lemma NewErrorMessage(kind: ErrorKind, code: ErrorCode, message: Option<string>, details: Option<map<string, string>>)
    ensures message.Some? && message.value != "" ==> NewError(kind, code, message, details).message == message.value
    ensures (message.None? || message.value == "") ==> NewError(kind, code, message, details).message == DefaultMessage(code)
    ensures NewError(kind, code, message, details).message != ""
  {
    DefaultMessageDefined(code);
  }

  /** Details default to the empty mapping; given ones are kept. */
  lemma NewErrorDetails(kind: ErrorKind, code: ErrorCode, message: Option<string>, details: Option<map<string, string>>)
    ensures NewError(kind, code, message, details).details == details.GetOr(map[])
  {
  }

  /** An error raised with only a code. */
  function Raise(kind: ErrorKind, code: ErrorCode): (e: AppError)
    ensures e.kind == kind && e.code == code && e.message == DefaultMessage(code) && e.details == map[]
  {
    NewError(kind, code, None, None)
  }

  function RaiseWith(kind: ErrorKind, code: ErrorCode, message: string): (e: AppError)
    ensures e.kind == kind && e.code == code && e.details == map[]
  {
    NewError(kind, code, Some(message), None)
  }

  /** The dictionary `to_dict` returns. */
  datatype ErrorDict = ErrorDict(errorCode: string, message: string, details: map<string, string>)

  /** The dictionary `create_error_response` returns. */
  datatype ErrorEnvelope = ErrorEnvelope(typ: string, error: ErrorDict)

  function ToDict(e: AppError): (d: ErrorDict)
    ensures FromValue(d.errorCode) == Some(e.code)
    ensures d.message == e.message && d.details == e.details
  {
    ValueRoundTrip(e.code);
    ErrorDict(Value(e.code), e.message, e.details)
  }

  function CreateErrorResponse(e: AppError): (r: ErrorEnvelope)
    ensures r.typ == "error"
    ensures FromValue(r.error.errorCode) == Some(e.code) && r.error.message == e.message
  {
    ErrorEnvelope("error", ToDict(e))
  }
}
