/** The pure helpers of the `/ws/analyze` endpoint and its assembly of the
    result message (backend/app/api/ws.py). */
module WsApi {
  import opened Wrappers
  import opened Text
  import opened Json
  import opened PyDict
  import opened Errors
  import opened WsMessages
  import ResultModels
  import Slices
  import PyNum

  /** What a session id and sequence number are guessed from. */
  datatype Guess = Guess(sessionId: Json, seqNo: int)

  /** `int(v or 0)`, with every exception giving 0. */
  function SeqOf(v: Option<Json>): (r: int)
    ensures v.None? || !Truthy(v.value) ==> r == 0
    ensures v == Some(JInt(r)) || r == 0 || (v.Some? && (v.value.JFloat? || v.value.JStr? || v.value.JBool?))
  {
    match v
    case None => 0
    case Some(j) =>
      if !Truthy(j) then 0
      else match j
        case JInt(i) => i
        case JFloat(f) => PyNum.Trunc(f)
        case JBool(b) => 1
        case JStr(s) => PyNum.IntOfString(s).GetOr(0)
        case _ => 0
  }

  /** `_guess_session_seq`, given the id `generate_session_id` would make. */
  function GuessSessionSeq(data: Option<Json>, generated: string): (g: Guess)
    ensures !(data.Some? && data.value.JObj?) ==> g == Guess(JStr(generated), 0)
    ensures data.Some? && data.value.JObj? ==>
      var sid := Field(data.value.obj, "session_id");
      && (sid.Some? && Truthy(sid.value) ==> g.sessionId == sid.value)
      && (sid.None? || !Truthy(sid.value) ==> g.sessionId == JStr(generated))
      && g.seqNo == SeqOf(Field(data.value.obj, "seq"))
  {
    match data
    case Some(JObj(obj)) =>
      var sid := Field(obj, "session_id");
      Guess(if sid.Some? && Truthy(sid.value) then sid.value else JStr(generated), SeqOf(Field(obj, "seq")))
    case _ => Guess(JStr(generated), 0)
  }

  /** A sequence number Python cannot read as an integer becomes 0: here,
      text such as "abc" that starts with a letter. */
  lemma SeqUnreadable(obj: Dict<string, Json>, generated: string, text: string)
    requires Field(obj, "seq") == Some(JStr(text))
    requires |text| > 0 && NoSpace(text) && 'a' <= text[0] <= 'z'
    ensures GuessSessionSeq(Some(JObj(obj)), generated).seqNo == 0
  {
    PyNum.NotAnInt(text);
  }

  /** `_map_error_code_to_front`: the codes with a front-end name of their
      own, and "DECODE_FAIL" for every other. */
  function MapErrorCodeToFront(code: ErrorCode): (r: string)
    ensures r == "FACE_NOT_FOUND" <==> code == NoFaceDetected
    ensures r == "MULTIPLE_FACES" <==> code == MultipleFacesDetected
    ensures r == "TOO_DARK" <==> code == ImageTooDark
    ensures r == "TOO_BLURRY" <==> code == ImageTooBlurry
    ensures r == "EXPRESSION_WEAK" <==> code == ExpressionNotDetected || code == ExpressionLowConfidence
    ensures r == "TIMEOUT" <==> code == TimeoutError || code == WsConnectionError
    ensures r == "DECODE_FAIL" <==> !(code in {NoFaceDetected, MultipleFacesDetected, ImageTooDark, ImageTooBlurry,
                                             ExpressionNotDetected, ExpressionLowConfidence, TimeoutError, WsConnectionError})
  {
    match code
    case NoFaceDetected => "FACE_NOT_FOUND"
    case MultipleFacesDetected => "MULTIPLE_FACES"
    case ImageTooDark => "TOO_DARK"
    case ImageTooBlurry => "TOO_BLURRY"
    case ExpressionNotDetected => "EXPRESSION_WEAK"
    case ExpressionLowConfidence => "EXPRESSION_WEAK"
    case TimeoutError => "TIMEOUT"
    case WsConnectionError => "TIMEOUT"
    case _ => "DECODE_FAIL"
  }

  /** Codes missing from the table fall back to "DECODE_FAIL". */
  lemma UnmappedCodes()
    ensures MapErrorCodeToFront(ImageTooBright) == "DECODE_FAIL"
    ensures MapErrorCodeToFront(FaceTooSmall) == "DECODE_FAIL"
    ensures MapErrorCodeToFront(WsSessionExpired) == "DECODE_FAIL"
  {
  }

  /** `max(0, min(100, n))`. */
  function Clamp100(n: int): (r: int)
    ensures 0 <= r <= 100
    ensures 0 <= n <= 100 ==> r == n
  {
    if n < 0 then 0 else if n > 100 then 100 else n
  }

  /** The image URL of a match: its name, "_original" removed. */
  function ImageUrl(apiBaseUrl: string, name: string): string {
    apiBaseUrl + "/api/celeb-image/" + Replace(name, "_original", "") + "_01.jpg"
  }

  /** The result item for the `i`-th match. */
  function ItemFor(i: nat, m: ResultModels.RankingResult, apiBaseUrl: string): (item: ResultItem)
    ensures item.similarity100 == Clamp100(PyNum.RoundHalfEven(m.score))
  {
    var score100 := Clamp100(PyNum.RoundHalfEven(m.score));
    ResultItem(i + 1, m.celebId, m.name, PyNum.Round2(score100 as real / 100.0), score100,
               Some(ImageUrl(apiBaseUrl, m.name)))
  }

  /** Every item's similarity is its rounded percentage over 100, in [0, 1],
      and items for the first three matches satisfy `ResultItem`'s bounds. */
  lemma ItemForValid(i: nat, m: ResultModels.RankingResult, apiBaseUrl: string)
    requires i < 3
    ensures var item := ItemFor(i, m, apiBaseUrl);
      item.similarity == item.similarity100 as real / 100.0 && ResultItemValid(item)
  {
    var item := ItemFor(i, m, apiBaseUrl);
    PyNum.Round2Hundredths(item.similarity100);
  }

  /** The item loop: one item per match among the first three, ranked from 1. */
  method BuildResultItems(matches: seq<ResultModels.RankingResult>, apiBaseUrl: string)
    returns (items: seq<ResultItem>)
    ensures |items| == |Slices.Prefix(matches, 3)| && |items| <= 3
    ensures forall i :: 0 <= i < |items| ==> items[i] == ItemFor(i, matches[i], apiBaseUrl)
    ensures forall i :: 0 <= i < |items| ==>
      items[i].rank == i + 1 && ResultItemValid(items[i])
      && items[i].celebId == matches[i].celebId && items[i].celebName == matches[i].name
  {
    var top := Slices.Prefix(matches, 3);
    items := [];
    var i := 0;
    while i < |top|
      invariant 0 <= i <= |top| <= 3 && |top| <= |matches|
      invariant |items| == i
      invariant forall j :: 0 <= j < i ==> items[j] == ItemFor(j, matches[j], apiBaseUrl)
      invariant forall j :: 0 <= j < i ==> ResultItemValid(items[j])
    {
      assert top[i] == matches[i];
      ItemForValid(i, matches[i], apiBaseUrl);
      items := items + [ItemFor(i, top[i], apiBaseUrl)];
      i := i + 1;
    }
  }

  /** `ResultMessage(...)` for an analysis: `None` when pydantic refuses it,
      which happens exactly when the analysis time is negative. */
  function ResultMessageFor(sessionId: string, seqNo: int, result: ResultModels.AnalysisResult, items: seq<ResultItem>)
    : (r: Option<ResultMessage>)
    requires forall i :: 0 <= i < |items| ==> ResultItemValid(items[i])
    ensures r.Some? <==> result.analysisTimeMs >= 0
    ensures r.Some? ==>
      ResultMessageValid(r.value) && r.value.results == items
      && r.value.expressionLabel == ResultModels.ExpressionValue(result.detectedExpression)
      && r.value.qualityFlags == ResultModels.Issues(result.quality)
      && r.value.similarityMethod == "cosine" && r.value.sessionId == sessionId && r.value.seqNo == seqNo
  {
    var msg := ResultMessage(sessionId, seqNo, result.analysisTimeMs,
                             ResultModels.ExpressionValue(result.detectedExpression), "cosine",
                             ResultModels.Issues(result.quality), items);
    if ResultMessageValid(msg) then Some(msg) else None
  }
}
