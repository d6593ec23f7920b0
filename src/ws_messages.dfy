/** The WebSocket message records and the dispatch of client messages
    (backend/app/schemas/ws_messages.py). A record's field constraints are a
    validity predicate; building a record that breaks one is pydantic's
    `ValidationError`. */
module WsMessages {
  import opened Wrappers
  import opened Text
  import opened Json
  import opened PyDict
  import PyNum

  /** `MessageType`. */
  datatype MessageType = Analyze | Ping | ResultType | ErrorType | Pong

  function MessageTypeValue(t: MessageType): string {
    match t
    case Analyze => "analyze"
    case Ping => "ping"
    case ResultType => "result"
    case ErrorType => "error"
    case Pong => "pong"
  }

  /** `AnalyzeStep`. */
  datatype AnalyzeStep = Received | FaceDetected | ExpressionAnalyzed | EmbeddingExtracted | Matching | Completed

  function StepValue(s: AnalyzeStep): string {
    match s
    case Received => "received"
    case FaceDetected => "face_detected"
    case ExpressionAnalyzed => "expression_analyzed"
    case EmbeddingExtracted => "embedding_extracted"
    case Matching => "matching"
    case Completed => "completed"
  }

  /** The members of `AnalyzeStep` in declaration order, which is the order
      iterating over the enum yields. */
  function Steps(): (r: seq<AnalyzeStep>)
    ensures forall i, j :: 0 <= i < j < |r| ==> r[i] != r[j] && StepValue(r[i]) != StepValue(r[j])
  {
    [Received, FaceDetected, ExpressionAnalyzed, EmbeddingExtracted, Matching, Completed]
  }

  /** A step's position in that order. */
  function StepIndex(s: AnalyzeStep): (i: nat)
    ensures i < |Steps()| && Steps()[i] == s
  {
    match s
    case Received => 0
    case FaceDetected => 1
    case ExpressionAnalyzed => 2
    case EmbeddingExtracted => 3
    case Matching => 4
    case Completed => 5
  }

  /** Every step is listed, and the steps go received, face detected,
      expression analysed, embedding extracted, matching, completed. */
  lemma StepsComplete(s: AnalyzeStep)
    ensures s in Steps()
    ensures StepIndex(Received) < StepIndex(FaceDetected) < StepIndex(ExpressionAnalyzed)
      < StepIndex(EmbeddingExtracted) < StepIndex(Matching) < StepIndex(Completed)
  {
    assert Steps()[StepIndex(s)] == s;
  }

  /** `AnalyzeRequest`. */
  datatype AnalyzeRequest = AnalyzeRequest(sessionId: string, seqNo: int, tsMs: int, imageFormat: string, imageB64: string)

  predicate AnalyzeRequestValid(r: AnalyzeRequest) {
    r.seqNo >= 0 && r.tsMs >= 0 && r.imageFormat == "jpeg"
  }

  /** `ResultItem`. */
  datatype ResultItem = ResultItem(rank: int, celebId: string, celebName: string, similarity: real,
                                   similarity100: int, celebImageUrl: Option<string>)

  predicate ResultItemValid(item: ResultItem) {
    1 <= item.rank <= 3 && 0.0 <= item.similarity <= 1.0 && 0 <= item.similarity100 <= 100
  }

  /** `ResultMessage`. */
  datatype ResultMessage = ResultMessage(sessionId: string, seqNo: int, latencyMs: int, expressionLabel: string,
                                         similarityMethod: string, qualityFlags: seq<string>, results: seq<ResultItem>)

  predicate ResultMessageValid(m: ResultMessage) {
    m.latencyMs >= 0 && forall i :: 0 <= i < |m.results| ==> ResultItemValid(m.results[i])
  }

  /** `ErrorResponse`. */
  datatype ErrorResponse = ErrorResponse(sessionId: string, seqNo: int, latencyMs: int, errorCode: string,
                                         message: string, details: Option<Dict<string, Json>>)

  predicate ErrorResponseValid(e: ErrorResponse) {
    e.latencyMs >= 0
  }

  /** A parsed client message. */
  datatype ClientMessage = AnalyzeMessage(request: AnalyzeRequest) | PingMessage

  /** Why a client message was refused: an unknown `type` (the
      `ValueError`), or a field the request model rejects. */
  datatype ParseError = UnknownType(typeValue: Option<Json>) | InvalidField(field: string)

  /** The text of the `ValueError` for the simple shapes of `type`. */
  function UnknownTypeMessage(t: Option<Json>): string {
    "Unknown message type: " +
      match t
      case None => "None"
      case Some(JNull) => "None"
      case Some(JStr(s)) => s
      case Some(JInt(i)) => IntToString(i)
      case Some(JBool(b)) => if b then "True" else "False"
      case Some(_) => "..."
  }

  /** A required `str` field. */
  function StrField(data: Dict<string, Json>, key: string): (r: Result<string, ParseError>)
    ensures r.Ok? <==> Field(data, key).Some? && Field(data, key).value.JStr?
    ensures r.Ok? ==> Field(data, key) == Some(JStr(r.value))
  {
    match Field(data, key)
    case Some(JStr(s)) => Ok(s)
    case _ => Err(InvalidField(key))
  }

  /** Whether pydantic's lax `int` takes a JSON value, and as what: an
      integer; a bool as 0 or 1; a float with no fractional part; or a
      string that reads as an integer. */
  function LaxInt(j: Json): Option<int> {
    match j
    case JInt(i) => Some(i)
    case JBool(b) => Some(if b then 1 else 0)
    case JFloat(f) => if f.Floor as real == f then Some(f.Floor) else None
    case JStr(s) => PyNum.IntOfString(s)
    case _ => None
  }

  /** A required `int` field with `ge=0`: present, read by the lax `int`,
      and not negative. */
  function NatField(data: Dict<string, Json>, key: string): (r: Result<int, ParseError>)
    ensures r.Ok? <==> Field(data, key).Some? && LaxInt(Field(data, key).value).Some?
                       && LaxInt(Field(data, key).value).value >= 0
    ensures r.Ok? ==> r.value >= 0 && LaxInt(Field(data, key).value) == Some(r.value)
    ensures r.Err? ==> r.error == InvalidField(key)
  {
    match Field(data, key)
    case Some(j) =>
      (match LaxInt(j)
       case Some(i) => if i >= 0 then Ok(i) else Err(InvalidField(key))
       case None => Err(InvalidField(key)))
    case None => Err(InvalidField(key))
  }

  /** Every non-negative integer is accepted as itself, whether sent as a
      number, a whole float or its decimal text; a bool is accepted as 0 or
      1; null, lists and objects are refused. */
  lemma NatFieldAccepts(data: Dict<string, Json>, key: string, n: nat)
    ensures Field(data, key) == Some(JInt(n)) ==> NatField(data, key) == Ok(n)
    ensures Field(data, key) == Some(JFloat(n as real)) ==> NatField(data, key) == Ok(n)
    ensures Field(data, key) == Some(JStr(IntToString(n))) ==> NatField(data, key) == Ok(n)
    ensures Field(data, key) == Some(JBool(true)) ==> NatField(data, key) == Ok(1)
    ensures Field(data, key) == Some(JBool(false)) ==> NatField(data, key) == Ok(0)
    ensures Field(data, key).None? || Field(data, key) == Some(JNull) ==> NatField(data, key) == Err(InvalidField(key))
    ensures Field(data, key).Some? && (Field(data, key).value.JList? || Field(data, key).value.JObj?) ==>
      NatField(data, key) == Err(InvalidField(key))
  {
    var f := Field(data, key);
    if f == Some(JStr(IntToString(n))) {
      LaxIntText(n);
      NatFieldOf(data, key, n);
    } else if f == Some(JFloat(n as real)) {
      LaxIntWhole(n);
      NatFieldOf(data, key, n);
    }
  }

  /** The field's value as the lax `int` reads it decides the field. */
  lemma NatFieldOf(data: Dict<string, Json>, key: string, i: int)
    requires Field(data, key).Some? && LaxInt(Field(data, key).value) == Some(i)
    ensures NatField(data, key) == if i >= 0 then Ok(i) else Err(InvalidField(key))
  {
  }

  lemma LaxIntText(i: int)
    ensures LaxInt(JStr(IntToString(i))) == Some(i)
  {
    PyNum.IntOfStringRoundTrip(i);
  }

  lemma LaxIntWhole(i: int)
    ensures LaxInt(JFloat(i as real)) == Some(i)
  {
    assert (i as real).Floor == i;
  }

  /** A negative integer is refused, in every form. */
  lemma NatFieldRefusesNegative(data: Dict<string, Json>, key: string, i: int)
    requires i < 0
    ensures Field(data, key) == Some(JInt(i)) ==> NatField(data, key) == Err(InvalidField(key))
    ensures Field(data, key) == Some(JStr(IntToString(i))) ==> NatField(data, key) == Err(InvalidField(key))
  {
    if Field(data, key) == Some(JStr(IntToString(i))) {
      LaxIntText(i);
      NatFieldOf(data, key, i);
    }
  }

  /** The `image_format` field: absent means its default "jpeg"; if present it
      must be "jpeg". */
  function FormatField(data: Dict<string, Json>): (r: Result<string, ParseError>)
    ensures r.Ok? ==> r.value == "jpeg"
  {
    match Field(data, "image_format")
    case None => Ok("jpeg")
    case Some(JStr(s)) => if s == "jpeg" then Ok(s) else Err(InvalidField("image_format"))
    case Some(_) => Err(InvalidField("image_format"))
  }

  /** `AnalyzeRequest(**data)`; fields the model does not declare are ignored. */
  function ParseAnalyzeRequest(data: Dict<string, Json>): (r: Result<AnalyzeRequest, ParseError>)
    ensures r.Ok? ==> AnalyzeRequestValid(r.value)
  {
    var sid, seqNo, ts := StrField(data, "session_id"), NatField(data, "seq"), NatField(data, "ts_ms");
    var fmt, img := FormatField(data), StrField(data, "image_b64");
    if sid.Err? then Err(sid.error)
    else if seqNo.Err? then Err(seqNo.error)
    else if ts.Err? then Err(ts.error)
    else if fmt.Err? then Err(fmt.error)
    else if img.Err? then Err(img.error)
    else Ok(AnalyzeRequest(sid.value, seqNo.value, ts.value, fmt.value, img.value))
  }

  /** `parse_client_message`: dispatch on the `type` field. */
  function ParseClientMessage(data: Dict<string, Json>): (r: Result<ClientMessage, ParseError>)
    ensures Field(data, "type") == Some(JStr("ping")) ==> r == Ok(PingMessage)
    ensures Field(data, "type") == Some(JStr("analyze")) ==>
      (r.Ok? <==> ParseAnalyzeRequest(data).Ok?)
      && (r.Ok? ==> r.value == AnalyzeMessage(ParseAnalyzeRequest(data).value))
    ensures Field(data, "type") != Some(JStr("ping")) && Field(data, "type") != Some(JStr("analyze")) ==>
      r == Err(UnknownType(Field(data, "type")))
    ensures r.Ok? && r.value.AnalyzeMessage? ==> AnalyzeRequestValid(r.value.request)
  {
    var t := Field(data, "type");
    if t == Some(JStr("analyze")) then
      match ParseAnalyzeRequest(data)
      case Ok(req) => Ok(AnalyzeMessage(req))
      case Err(e) => Err(e)
    else if t == Some(JStr("ping")) then Ok(PingMessage)
    else Err(UnknownType(t))
  }

  /** An analyze request parses iff both strings are present and `seq` and
      `ts_ms` are whole and not negative; nothing else about it matters. */
  lemma AnalyzeRequestFields(data: Dict<string, Json>)
    ensures ParseAnalyzeRequest(data).Ok? <==>
      StrField(data, "session_id").Ok? && NatField(data, "seq").Ok? && NatField(data, "ts_ms").Ok?
      && FormatField(data).Ok? && StrField(data, "image_b64").Ok?
    ensures ParseAnalyzeRequest(data).Ok? ==>
      var req := ParseAnalyzeRequest(data).value;
      Field(data, "session_id") == Some(JStr(req.sessionId)) && Field(data, "image_b64") == Some(JStr(req.imageB64))
  {
  }
}
