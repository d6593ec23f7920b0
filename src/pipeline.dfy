/** The analysis pipeline (backend/app/domain/pipeline/analyze_pipeline.py):
    decoding, face detection and the quality gate, the expression, the
    embedding, then matching against the catalog, with a progress event
    before each stage. The landmarker, the embedder and the image
    measurements are supplied as functions, and every clock reading is a
    parameter. */
module Pipeline {
  import opened Wrappers
  import opened Errors
  import opened ResultModels
  import opened WsMessages
  import Arrays
  import Config
  import PyNum
  import PyDict
  import Text
  import Timing
  import Decode
  import FaceCrop
  import QualityGate
  import ExpressionMap
  import Similarity
  import TopK
  import ScoreScale
  import Loader
  import CelebIndex
  import Ids

  /** `PipelineConfig`. */
  datatype PipelineConfig = PipelineConfig(strictQuality: bool, filterByExpression: bool, fallbackExpression: string)

  const DefaultConfig := PipelineConfig(false, true, "neutral")

  /** What a collaborator raises: a `BeautyInsideError` of any class, kept as
      it is, or any other exception, by its text. */
  datatype Failure = Domain(error: AppError) | Other(text: string)

  /** One face the landmarker reports. */
  datatype FaceResult = FaceResult(landmarks: seq<FaceCrop.Landmark>, blendshapes: ExpressionMap.Blendshapes,
                                   bbox: FaceCrop.Box)

  /** The components built in `__init__` and the library calls behind them:
      the base64 and image codecs; the landmarker's `detect`; the blur and
      brightness measures of the quality gate; the embedder's `extract`; the
      similarity kernels; the score curves; and the texts of the exceptions
      OpenCV and numpy raise (`resize` on an empty crop, a boolean mask that
      does not fit the embeddings, and the library errors of
      `compute_similarities`). */
  datatype Services = Services(
    codec: Decode.Codec,
    detect: Decode.Image -> Result<seq<FaceResult>, Failure>,
    blurOf: Decode.Image -> real,
    brightnessOf: Decode.Image -> real,
    embed: FaceCrop.Face -> Result<Arrays.NdArray, Failure>,
    kernels: Similarity.Kernels,
    maths: ScoreScale.Maths,
    resizeFailure: string,
    maskFailure: string,
    libraryText: Similarity.SimError -> string)

  /** `SimilarityCalculator()` compares by cosine. */
  const SimilarityMethod := "cosine"

  /** One call of the progress callback. */
  datatype Event = Event(step: AnalyzeStep, percent: int, message: string)

  /** The progress callback; `raises` tells whether a call raises. */
  datatype Listener = Listener(raises: Event -> bool)

  /** The events of a complete analysis, in the order they are sent. */
  function Progress(): (r: seq<Event>)
    ensures |r| == 6
  {
    [Event(Received, 10, "이미지 수신 완료"),
     Event(FaceDetected, 25, "얼굴 감지 중..."),
     Event(ExpressionAnalyzed, 40, "표정 분석 중..."),
     Event(EmbeddingExtracted, 60, "얼굴 특징 추출 중..."),
     Event(Matching, 80, "닮은 연예인 찾는 중..."),
     Event(Completed, 100, "분석 완료!")]
  }

  /** The events walk through every `AnalyzeStep` in declaration order, the
      percentage rising strictly to 100. */
  lemma ProgressSteps()
    ensures forall i :: 0 <= i < 6 ==> Progress()[i].step == Steps()[i]
    ensures forall i, j :: 0 <= i < j < 6 ==> Progress()[i].percent < Progress()[j].percent
    ensures Progress()[0].percent > 0 && Progress()[5].percent == 100
  {
  }

  /** What the callback has seen once the first `k` events are sent. */
  function Sent(callback: Option<Listener>, k: nat): seq<Event>
    requires k <= 6
  {
    if callback.Some? then Progress()[..k] else []
  }

  /** Sending event `k` extends what the callback has seen by that event. */
  lemma SentNext(callback: Option<Listener>, k: nat, sent: seq<Event>)
    requires k < 6
    requires sent == if callback.Some? then [Progress()[k]] else []
    ensures Sent(callback, k) + sent == Sent(callback, k + 1)
  {
    if callback.Some? {
      assert Progress()[..k + 1] == Progress()[..k] + [Progress()[k]];
    }
  }

  const InternalPrefix := "분석 중 오류가 발생했습니다: "

  /** The `INTERNAL_ERROR` an unexpected exception becomes. */
  function Internal(text: string): (e: AppError)
    ensures e == AppError(BaseKind, InternalError, InternalPrefix + text, map[])
  {
    NewError(BaseKind, InternalError, Some(InternalPrefix + text), None)
  }

  /** The two `except` clauses: a `BeautyInsideError` is re-raised unchanged,
      anything else is wrapped. */
  function Raised(f: Failure): (e: AppError)
    ensures f.Domain? ==> e == f.error
    ensures f.Other? ==> e.kind == BaseKind && e.code == InternalError && e.message == InternalPrefix + f.text
  {
    match f
    case Domain(e) => e
    case Other(t) => Internal(t)
  }

  /** `", ".join` of the dimensions. */
  function JoinDims(shape: seq<nat>): string
    requires |shape| >= 1
  {
    if |shape| == 1 then Text.NatToString(shape[0])
    else JoinDims(shape[..|shape| - 1]) + ", " + Text.NatToString(shape[|shape| - 1])
  }

  /** The text of a shape tuple: `()`, `(512,)`, `(3, 512)`. */
  function ShapeText(shape: seq<nat>): string {
    if |shape| == 0 then "()"
    else if |shape| == 1 then "(" + Text.NatToString(shape[0]) + ",)"
    else "(" + JoinDims(shape) + ")"
  }

  /** `str(e)` of what `compute_similarities` raises; the errors numpy raises
      carry numpy's text. */
  function SimErrorText(e: Similarity.SimError, user: Arrays.NdArray, cands: Arrays.NdArray,
                        libraryText: Similarity.SimError -> string): string
  {
    match e
    case NoCandidates => "No candidate embeddings"
    case NotTwoDimensional => "Candidate embeddings must be 2D"
    case NoUserEmbedding => "User embedding is None"
    case DimMismatch => "Embedding dim mismatch: user=" + ShapeText(user.shape) + " cand=" + ShapeText(cands.shape)
    case UnknownMethod(name) => "Unknown similarity method: " + name
    case _ => libraryText(e)
  }

  /** The face box as the quality gate takes it. */
  function GateBox(b: FaceCrop.Box): QualityGate.Box {
    QualityGate.Box(b.x, b.y, b.w, b.h)
  }

  /** The expression step: empty blendshapes give neutral at 0.5. */
  function FaceExpression(bs: ExpressionMap.Blendshapes, settings: Config.Settings): (Expression, real) {
    if bs == map[] then (Neutral, 0.5) else ExpressionMap.GetDominantExpression(bs, None, settings)
  }

  /** The clock readings of one analysis, in the order they are taken. */
  datatype Clock = Clock(start: real, decode: real, faceDetection: real, expression: real,
                         embedding: real, matching: real, stop: real)

  /** The name of the `k`-th timer step. */
  function StepName(k: nat): string
    requires k < 5
  {
    ["decode", "face_detection", "expression", "embedding", "matching"][k]
  }

  /** The clock reading taken when the `k`-th timer step begins. */
  function StepReading(c: Clock, k: nat): real
    requires k < 5
  {
    [c.decode, c.faceDetection, c.expression, c.embedding, c.matching][k]
  }

  /** The step current after `k` steps have begun, and its start reading. */
  function CurrentAfter(k: nat): Option<string>
    requires k <= 5
  {
    if k == 0 then None else Some(StepName(k - 1))
  }

  function StartAfter(c: Clock, k: nat): Option<real>
    requires k <= 5
  {
    if k == 0 then None else Some(StepReading(c, k - 1))
  }

  /** The timer's recorded steps after `k` steps have begun. */
  function StepsAfter(c: Clock, k: nat): PyDict.Dict<string, real>
    requires k <= 5
  {
    if k == 0 then PyDict.Empty()
    else Timing.CloseStep(StepsAfter(c, k - 1), CurrentAfter(k - 1), StartAfter(c, k - 1), StepReading(c, k - 1))
  }

  /** The timer's steps after a complete analysis. */
  function TimerSteps(c: Clock): PyDict.Dict<string, real> {
    Timing.Stopped(StepsAfter(c, 5), Some("matching"), Some(c.matching), Some(c.start), c.stop)
  }

  /** `int(timer.total_ms)`. */
  function AnalysisTimeMs(c: Clock): int {
    PyNum.Trunc(Timing.TotalOf(TimerSteps(c)))
  }

  /** The reported time is the whole time from the start reading to the stop
      reading, in whole milliseconds; none of the step names is "total", so a
      start reading of exactly 0.0 reports 0. */
  lemma AnalysisTime(c: Clock)
    ensures c.start != 0.0 ==> AnalysisTimeMs(c) == PyNum.Trunc(Timing.Millis(c.start, c.stop))
    ensures c.start != 0.0 && c.start <= c.stop ==> AnalysisTimeMs(c) >= 0
    ensures c.start == 0.0 ==> AnalysisTimeMs(c) == 0
  {
    TimerTotal(c);
  }

  lemma TimerTotal(c: Clock)
    ensures Timing.TotalOf(TimerSteps(c)) == if c.start != 0.0 then Timing.Millis(c.start, c.stop) else 0.0
  {
    Timing.StoppedTotal(StepsAfter(c, 5), Some("matching"), Some(c.matching), Some(c.start), c.stop);
    if c.start == 0.0 {
      NoTotalAfter(c, 5);
      NoTotal(StepsAfter(c, 5), Some("matching"), Some(c.matching), c.stop);
    }
  }

  /** None of the steps is named "total", so none of them records one. */
  lemma {:induction false} NoTotalAfter(c: Clock, k: nat)
    requires k <= 5
    ensures "total" !in StepsAfter(c, k).vals
  {
    if k > 0 {
      NoTotalAfter(c, k - 1);
      NoTotal(StepsAfter(c, k - 1), CurrentAfter(k - 1), StartAfter(c, k - 1), StepReading(c, k - 1));
    }
  }

  /** Closing a step not named "total" adds no "total" entry. */
  lemma NoTotal(steps: PyDict.Dict<string, real>, current: Option<string>, stepStart: Option<real>, now: real)
    requires "total" !in steps.vals && current != Some("total")
    ensures "total" !in Timing.CloseStep(steps, current, stepStart, now).vals
  {
  }

  /** What the pipeline reads from the shared loader and index: the
      embeddings (or the error for missing arrays), the metadata, and the
      expression table. */
  datatype Catalog = Catalog(embeddings: Result<(Arrays.NdArray, seq<string>), string>,
                             celebs: map<string, Loader.CelebInfo>, table: CelebIndex.Table)

  function CatalogOf(loader: Loader.CelebDataLoader, index: CelebIndex.ExpressionIndex): Catalog
    reads loader, index
  {
    Catalog(loader.GetAllEmbeddings(), loader.celebs, index.exprToCelebs)
  }

  /** The rows matched against: the expression's rows when filtering is on
      and the table lists the expression, all rows otherwise; or the mask
      numpy refuses. */
  function Candidates(filter: bool, expression: string, all: (Arrays.NdArray, seq<string>),
                      table: CelebIndex.Table): Result<(Arrays.NdArray, seq<string>), CelebIndex.MaskError>
  {
    if filter && expression in table.vals then CelebIndex.FilterEmbeddings(table, expression, all.0, all.1)
    else Ok(all)
  }

  /** Unfiltered, the whole catalog is matched; filtered, only ids the table
      lists under the expression remain, each with its own row, and none of
      those ids is dropped. Filtering fails exactly when the expression lists
      ids and the catalog has no ids (a float mask) or its mask does not fit
      the embeddings. */
  lemma CandidatesFiltered(filter: bool, expression: string, all: (Arrays.NdArray, seq<string>),
                           table: CelebIndex.Table)
    ensures !(filter && expression in table.vals) ==> Candidates(filter, expression, all, table) == Ok(all)
    ensures var r := Candidates(filter, expression, all, table);
      r == Err(CelebIndex.FloatMask) <==>
        (filter && expression in table.vals && CelebIndex.CelebsIn(table, expression) != [] && all.1 == [])
    ensures var r := Candidates(filter, expression, all, table);
      r == Err(CelebIndex.MaskMisfit) <==>
        (filter && expression in table.vals && CelebIndex.CelebsIn(table, expression) != [] && all.1 != []
         && !(|all.0.shape| >= 1 && |all.0.rows| == |all.1|))
    ensures var r := Candidates(filter, expression, all, table);
      filter && CelebIndex.CelebsIn(table, expression) != [] && r.Ok? ==>
        |r.value.0.rows| == |r.value.1|
        && (forall i :: 0 <= i < |r.value.1| ==> r.value.1[i] in CelebIndex.CelebsIn(table, expression))
        && (forall k :: 0 <= k < |all.1| && all.1[k] in CelebIndex.CelebsIn(table, expression) ==>
              all.1[k] in r.value.1)
  {
    var r := Candidates(filter, expression, all, table);
    var listed := CelebIndex.CelebsIn(table, expression);
    var target := set c | c in listed;
    if listed != [] {
      assert listed[0] in target;
    }
    if filter && listed != [] && r.Ok? {
      var kept := Arrays.Kept(CelebIndex.TargetMask(all.1, target));
      forall k | 0 <= k < |all.1| && all.1[k] in listed
        ensures all.1[k] in r.value.1
      {
        assert all.1[k] in target;
        assert k in kept;
        var i :| 0 <= i < |kept| && kept[i] == k;
        assert r.value.1[i] == all.1[k];
      }
    }
  }

  /** The text of numpy's refusal of the filter mask. */
  function MaskErrorText(e: CelebIndex.MaskError, services: Services): string {
    match e
    case FloatMask => CelebIndex.FloatMaskText
    case MaskMisfit => services.maskFailure
  }

  /** Step 3: the crop on the first face, then its embedding. */
  function Embedded(img: Decode.Image, face: FaceResult, cropper: FaceCrop.FaceCropper, services: Services)
    : Result<Arrays.NdArray, AppError>
  {
    var crop := FaceCrop.CropWith(cropper, img.height, img.width, face.bbox, Some(face.landmarks));
    if crop == FaceCrop.Plain(FaceCrop.ResizeFailed) then Err(Internal(services.resizeFailure))
    else
      match services.embed(crop)
      case Err(f) => Err(Raised(f))
      case Ok(user) => Ok(user)
  }

  /** Step 4: the catalog, filtered by the expression, ranked against the
      user's embedding and cut to the Top-K. Every failure here is an
      unexpected exception. */
  function Matched(user: Arrays.NdArray, expression: Expression, filter: bool, settings: Config.Settings,
                   services: Services, cat: Catalog): (r: Result<seq<RankingResult>, AppError>)
  {
    var value := ExpressionValue(expression);
    match cat.embeddings
    case Err(msg) => Err(Internal(msg))
    case Ok(all) =>
      match Candidates(filter, value, all, cat.table)
      case Err(e) => Err(Internal(MaskErrorText(e, services)))
      case Ok(cands) =>
        match Similarity.Ranked(Some(user), Some(cands.0), cands.1, SimilarityMethod, services.kernels)
        case Err(se) => Err(Internal(SimErrorText(se, user, cands.0, services.libraryText)))
        case Ok(ps) =>
          Ok(TopK.Rankings(TopK.Kept(ps, 3, 0.4, TopK.ExpressionOrNeutral(Some(value)), cat.celebs, services.maths),
                           value))
  }

  /** How an analysis ends: its result, and how many progress events were
      sent before it ended. */
  datatype Run = Run(result: Result<AnalysisResult, AppError>, reached: nat)

  /** The parts of a pipeline fixed at construction. */
  datatype Setup = Setup(config: PipelineConfig, settings: Config.Settings, services: Services,
                         cropper: FaceCrop.FaceCropper, gate: QualityGate.Gate)

  /** `analyze` after the session id is settled and the data loaded: the
      result and the number of progress events sent. */
  function Expected(imageData: string, p: Setup, session: string, clock: Clock,
                    cat: Catalog): (run: Run)
    ensures 1 <= run.reached <= 6
    ensures run.result.Ok? <==> run.reached == 6
  {
    match Decode.DecodeBase64Image(imageData, p.settings, p.services.codec)
    case Err(e) => Run(Err(e), 1)
    case Ok(img) => FromImage(img, p, session, clock, cat)
  }

  /** Step 2 on a decoded image: detection, the face count, then the quality
      gate on the first face. */
  function Gated(img: Decode.Image, p: Setup): Result<(FaceResult, QualityResult), AppError> {
    match p.services.detect(img)
    case Err(f) => Err(Raised(f))
    case Ok(faces) =>
      var count := QualityGate.ValidateFaceCount(|faces|, p.settings);
      if count.Some? then Err(count.value)
      else
        match QualityGate.Check(p.gate, p.services.blurOf(img), p.services.brightnessOf(img),
                                Some(GateBox(faces[0].bbox)), img.height, img.width, |faces|, p.settings)
        case Err(e) => Err(e)
        case Ok(quality) => Ok((faces[0], quality))
  }

  /** Everything from step 2 on. */
  function FromImage(img: Decode.Image, p: Setup, session: string, clock: Clock,
                     cat: Catalog): (run: Run)
    ensures 2 <= run.reached <= 6
    ensures run.result.Ok? <==> run.reached == 6
  {
    match Gated(img, p)
    case Err(e) => Run(Err(e), 2)
    case Ok(gated) => FromQuality(img, gated.0, gated.1, p, session, clock, cat)
  }

  /** The expression, step 3 and step 4, once the gate has passed. */
  function FromQuality(img: Decode.Image, face: FaceResult, quality: QualityResult, p: Setup, session: string,
                       clock: Clock, cat: Catalog): (run: Run)
    ensures 4 <= run.reached <= 6
    ensures run.result.Ok? <==> run.reached == 6
  {
    var expressed := FaceExpression(face.blendshapes, p.settings);
    match Embedded(img, face, p.cropper, p.services)
    case Err(e) => Run(Err(e), 4)
    case Ok(user) => FromEmbedding(user, expressed.0, expressed.1, quality, p, session, clock, cat)
  }

  /** Step 4 and the result, once the embedding is extracted. */
  function FromEmbedding(user: Arrays.NdArray, expression: Expression, confidence: real, quality: QualityResult,
                         p: Setup, session: string, clock: Clock, cat: Catalog): (run: Run)
    ensures 5 <= run.reached <= 6
    ensures run.result.Ok? <==> run.reached == 6
  {
    match Matched(user, expression, p.config.filterByExpression, p.settings, p.services, cat)
    case Err(e) => Run(Err(e), 5)
    case Ok(top) => Run(Ok(AnalysisResult(session, expression, confidence, top, quality, AnalysisTimeMs(clock))), 6)
  }

  /** Which stage an error comes from tells what it is: the decoder's image
      errors after the first event; the detector's own error, the face count
      or the quality gate's after the second; after the fifth always an
      `INTERNAL_ERROR`, since matching raises nothing of the program's own. */
  lemma StageErrors(imageData: string, p: Setup, session: string, clock: Clock,
                    cat: Catalog)
    ensures var run := Expected(imageData, p, session, clock, cat);
      && (run.reached == 1 ==> run.result.Err? && run.result.error.kind == ImageQualityKind)
      && (run.reached == 5 ==>
            run.result.Err? && run.result.error.kind == BaseKind && run.result.error.code == InternalError
            && Text.StartsWith(run.result.error.message, InternalPrefix))
      && run.reached != 3
  {
    var run := Expected(imageData, p, session, clock, cat);
    if run.reached == 5 {
      var img := Decode.DecodeBase64Image(imageData, p.settings, p.services.codec).value;
      var faces := p.services.detect(img).value;
      var quality := QualityGate.Check(p.gate, p.services.blurOf(img), p.services.brightnessOf(img),
                                       Some(GateBox(faces[0].bbox)), img.height, img.width, |faces|, p.settings).value;
      assert run == FromQuality(img, faces[0], quality, p, session, clock, cat);
      var (expression, confidence) := FaceExpression(faces[0].blendshapes, p.settings);
      var user := Embedded(img, faces[0], p.cropper, p.services).value;
      var m := Matched(user, expression, p.config.filterByExpression, p.settings, p.services, cat);
      assert m.Err? && run.result.error == m.error;
      var msg := m.error.message;
      assert msg[..|InternalPrefix|] == InternalPrefix;
    }
  }

  /** A face count of zero or above `max_faces` ends the analysis with the
      count's error, after the second event, before any crop or embedding. */
  lemma FaceCountRefused(imageData: string, p: Setup, session: string, clock: Clock,
                         cat: Catalog, faces: seq<FaceResult>)
    requires Decode.DecodeBase64Image(imageData, p.settings, p.services.codec).Ok?
    requires p.services.detect(Decode.DecodeBase64Image(imageData, p.settings, p.services.codec).value) == Ok(faces)
    requires |faces| == 0 || |faces| > p.settings.maxFaces
    ensures var run := Expected(imageData, p, session, clock, cat);
      && run.reached == 2
      && run.result == Err(QualityGate.ValidateFaceCount(|faces|, p.settings).value)
      && run.result.error.kind == FaceDetectionKind
      && (|faces| == 0 ==> run.result.error.code == NoFaceDetected)
      && (|faces| > 0 ==> run.result.error.code == MultipleFacesDetected)
  {
  }

  /** What the detector raises surfaces after the second event: its own
      errors unchanged, any other exception as an `INTERNAL_ERROR` with its
      text. */
  lemma DetectorFailure(imageData: string, p: Setup, session: string, clock: Clock,
                        cat: Catalog, f: Failure)
    requires Decode.DecodeBase64Image(imageData, p.settings, p.services.codec).Ok?
    requires p.services.detect(Decode.DecodeBase64Image(imageData, p.settings, p.services.codec).value) == Err(f)
    ensures var run := Expected(imageData, p, session, clock, cat);
      && run.reached == 2
      && (f.Domain? ==> run.result == Err(f.error))
      && (f.Other? ==> run.result == Err(AppError(BaseKind, InternalError, InternalPrefix + f.text, map[])))
  {
  }

  /** A successful result carries the session id, the expression of the
      first face (neutral at 0.5 without blendshapes), the gate's quality
      result, at most three matches and the timer's total. */
  lemma SuccessFields(imageData: string, p: Setup, session: string, clock: Clock,
                      cat: Catalog, img: Decode.Image, faces: seq<FaceResult>)
    requires Decode.DecodeBase64Image(imageData, p.settings, p.services.codec) == Ok(img)
    requires p.services.detect(img) == Ok(faces)
    requires Expected(imageData, p, session, clock, cat).result.Ok?
    ensures |faces| > 0
    ensures var a := Expected(imageData, p, session, clock, cat).result.value;
      && a.sessionId == session
      && (faces[0].blendshapes == map[] ==> a.detectedExpression == Neutral && a.expressionConfidence == 0.5)
      && (faces[0].blendshapes != map[] ==>
            (a.detectedExpression, a.expressionConfidence)
            == ExpressionMap.GetDominantExpression(faces[0].blendshapes, None, p.settings))
      && Ok(a.quality) == QualityGate.Check(p.gate, p.services.blurOf(img), p.services.brightnessOf(img),
                                            Some(GateBox(faces[0].bbox)), img.height, img.width, |faces|, p.settings)
      && |a.topMatches| <= 3
      && a.analysisTimeMs == AnalysisTimeMs(clock)
  {
  }

  /** The timer after `k` steps of `analyze` have begun. */
  predicate TimerAt(t: Timing.StepTimer, c: Clock, k: nat)
    reads t
  {
    k <= 5 && t.Valid() && t.steps == StepsAfter(c, k) && t.currentStep == CurrentAfter(k)
    && t.stepStart == StartAfter(c, k) && t.totalStart == Some(c.start)
  }

  /** `AnalyzePipeline`: the components are fixed at construction; the
      loader and the expression index are fetched on first use. */
  class AnalyzePipeline {
    const config: PipelineConfig
    const settings: Config.Settings
    const services: Services
    const cropper: FaceCrop.FaceCropper
    const gate: QualityGate.Gate
    var celebLoader: Loader.CelebDataLoader?
    var expressionIndex: CelebIndex.ExpressionIndex?

    /** `__init__`: `config or PipelineConfig()`, a default cropper and a
        gate as strict as the configuration. */
    constructor(config: Option<PipelineConfig>, settings: Config.Settings, services: Services)
      ensures this.config == config.GetOr(DefaultConfig) && this.settings == settings && this.services == services
      ensures cropper == FaceCrop.DefaultCropper && gate == QualityGate.Gate(this.config.strictQuality)
      ensures celebLoader == null && expressionIndex == null
    {
      this.config := config.GetOr(DefaultConfig);
      this.settings := settings;
      this.services := services;
      cropper := FaceCrop.DefaultCropper;
      gate := QualityGate.Gate(config.GetOr(DefaultConfig).strictQuality);
      celebLoader := null;
      expressionIndex := null;
    }

    function Parts(): Setup {
      Setup(config, settings, services, cropper, gate)
    }

    /** `_ensure_data_loaded`: each of the shared loader and index is taken
        once, and kept. */
    method EnsureDataLoaded(sharedLoader: Loader.CelebDataLoader, sharedIndex: CelebIndex.ExpressionIndex)
      modifies this
      ensures celebLoader == if old(celebLoader) == null then sharedLoader else old(celebLoader)
      ensures expressionIndex == if old(expressionIndex) == null then sharedIndex else old(expressionIndex)
    {
      if celebLoader == null {
        celebLoader := sharedLoader;
      }
      if expressionIndex == null {
        expressionIndex := sharedIndex;
      }
    }

    /** `_notify_progress`: the callback is called when there is one; an
        exception from it is logged and goes no further. */
    method NotifyProgress(callback: Option<Listener>, step: AnalyzeStep, percent: int, message: string)
      returns (sent: seq<Event>, warned: bool)
      ensures sent == if callback.Some? then [Event(step, percent, message)] else []
      ensures warned <==> callback.Some? && callback.value.raises(Event(step, percent, message))
    {
      sent := [];
      warned := false;
      if callback.Some? {
        var e := Event(step, percent, message);
        sent := [e];
        if callback.value.raises(e) {
          warned := true;
        }
      }
    }

    /** Step 4 of `analyze`: the catalog, filtered when the configuration
        says so and the index knows the expression, ranked against the
        user's embedding and cut to the Top-K. */
    method MatchStage(user: Arrays.NdArray, expression: Expression, loader: Loader.CelebDataLoader,
                      index: CelebIndex.ExpressionIndex)
      returns (r: Result<seq<RankingResult>, AppError>)
      ensures r == Matched(user, expression, config.filterByExpression, settings, services, CatalogOf(loader, index))
    {
      var catalog := loader.GetAllEmbeddings();
      if catalog.Err? {
        return Err(Internal(catalog.error));
      }
      var cands := catalog.value;
      var value := ExpressionValue(expression);
      if config.filterByExpression && index.HasExpression(value) {
        var filtered := index.GetFilteredEmbeddings(value, cands.0, cands.1);
        if filtered.Err? {
          return Err(Internal(MaskErrorText(filtered.error, services)));
        }
        cands := filtered.value;
      }
      assert Candidates(config.filterByExpression, value, catalog.value, index.exprToCelebs) == Ok(cands);
      var similarities := Similarity.ComputeSimilarities(Some(user), Some(cands.0), cands.1,
                                                         SimilarityMethod, services.kernels);
      if similarities.Err? {
        return Err(Internal(SimErrorText(similarities.error, user, cands.0, services.libraryText)));
      }
      var topMatches := TopK.GetTopKMatches(similarities.value, value, settings, loader.celebs, services.maths);
      return Ok(topMatches);
    }

    /** Step 2 of `analyze`: detection, the face count, then the quality
        gate on the first face. */
    method GateStage(img: Decode.Image) returns (r: Result<(FaceResult, QualityResult), AppError>)
      ensures r == Gated(img, Parts())
    {
      var detected := services.detect(img);
      if detected.Err? {
        return Err(Raised(detected.error));
      }
      var faces := detected.value;
      var countError := QualityGate.ValidateFaceCount(|faces|, settings);
      if countError.Some? {
        return Err(countError.value);
      }
      var face := faces[0];
      var quality := QualityGate.Check(gate, services.blurOf(img), services.brightnessOf(img), Some(GateBox(face.bbox)),
                                       img.height, img.width, |faces|, settings);
      if quality.Err? {
        return Err(quality.error);
      }
      return Ok((face, quality.value));
    }

    /** Step 3 of `analyze`: the aligned crop of the first face, then its
        embedding. */
    method EmbedStage(img: Decode.Image, face: FaceResult) returns (r: Result<Arrays.NdArray, AppError>)
      ensures r == Embedded(img, face, cropper, services)
    {
      var faceImage := FaceCrop.CropWith(cropper, img.height, img.width, face.bbox, Some(face.landmarks));
      if faceImage == FaceCrop.Plain(FaceCrop.ResizeFailed) {
        return Err(Internal(services.resizeFailure));
      }
      var extracted := services.embed(faceImage);
      if extracted.Err? {
        return Err(Raised(extracted.error));
      }
      return Ok(extracted.value);
    }

    /** `analyze`: the session id is settled and the data loaded first; then
        the stages run in order, each announced to the callback, and the
        first failure ends the analysis. The callback's own exceptions never
        change the outcome. */
    method Analyze(imageData: string, sessionId: Option<string>, generated: string, callback: Option<Listener>,
                   clock: Clock, sharedLoader: Loader.CelebDataLoader, sharedIndex: CelebIndex.ExpressionIndex)
      returns (r: Result<AnalysisResult, AppError>, notified: seq<Event>)
      modifies this
      ensures celebLoader == if old(celebLoader) == null then sharedLoader else old(celebLoader)
      ensures expressionIndex == if old(expressionIndex) == null then sharedIndex else old(expressionIndex)
      ensures celebLoader != null && expressionIndex != null
      ensures var run := Expected(imageData, Parts(), Ids.GetOrCreateSessionId(sessionId, generated), clock,
                                  CatalogOf(celebLoader, expressionIndex));
        r == run.result && notified == Sent(callback, run.reached)
    {
      var timer := new Timing.StepTimer();
      timer.Start(clock.start);
      var session := Ids.GetOrCreateSessionId(sessionId, generated);
      EnsureDataLoaded(sharedLoader, sharedIndex);
      r, notified := Stages(imageData, session, callback, clock, celebLoader, expressionIndex, timer);
    }

    /** The body of `analyze`'s `try`, from step 1. */
    method Stages(imageData: string, session: string, callback: Option<Listener>, clock: Clock,
                  loader: Loader.CelebDataLoader, index: CelebIndex.ExpressionIndex, timer: Timing.StepTimer)
      returns (r: Result<AnalysisResult, AppError>, notified: seq<Event>)
      requires TimerAt(timer, clock, 0)
      modifies timer
      ensures var run := Expected(imageData, Parts(), session, clock, CatalogOf(loader, index));
        r == run.result && notified == Sent(callback, run.reached)
    {
      var sent, warned := NotifyProgress(callback, Received, 10, "이미지 수신 완료");
      SentNext(callback, 0, sent);
      timer.Step("decode", clock.decode);
      var decoded := Decode.DecodeBase64Image(imageData, settings, services.codec);
      if decoded.Err? {
        return Err(decoded.error), sent;
      }
      r, notified := DetectOnward(decoded.value, session, callback, clock, loader, index, timer, sent);
    }

    /** Step 2 on, once the image is decoded. */
    method DetectOnward(img: Decode.Image, session: string, callback: Option<Listener>, clock: Clock,
                        loader: Loader.CelebDataLoader, index: CelebIndex.ExpressionIndex, timer: Timing.StepTimer,
                        prior: seq<Event>)
      returns (r: Result<AnalysisResult, AppError>, notified: seq<Event>)
      requires TimerAt(timer, clock, 1) && prior == Sent(callback, 1)
      modifies timer
      ensures var run := FromImage(img, Parts(), session, clock, CatalogOf(loader, index));
        r == run.result && notified == Sent(callback, run.reached)
    {
      var sent, warned := NotifyProgress(callback, FaceDetected, 25, "얼굴 감지 중...");
      SentNext(callback, 1, sent);
      timer.Step("face_detection", clock.faceDetection);
      var gated := GateStage(img);
      if gated.Err? {
        return Err(gated.error), prior + sent;
      }
      r, notified := EmbedOnward(img, gated.value.0, gated.value.1, session, callback, clock, loader, index, timer,
                                 prior + sent);
    }

    /** The expression and step 3 on, once the quality gate has passed. */
    method EmbedOnward(img: Decode.Image, face: FaceResult, quality: QualityResult, session: string,
                       callback: Option<Listener>, clock: Clock, loader: Loader.CelebDataLoader,
                       index: CelebIndex.ExpressionIndex, timer: Timing.StepTimer, prior: seq<Event>)
      returns (r: Result<AnalysisResult, AppError>, notified: seq<Event>)
      requires TimerAt(timer, clock, 2) && prior == Sent(callback, 2)
      modifies timer
      ensures var run := FromQuality(img, face, quality, Parts(), session, clock, CatalogOf(loader, index));
        r == run.result && notified == Sent(callback, run.reached)
    {
      var sent, warned := NotifyProgress(callback, ExpressionAnalyzed, 40, "표정 분석 중...");
      SentNext(callback, 2, sent);
      timer.Step("expression", clock.expression);
      var expression: Expression, confidence: real;
      if face.blendshapes != map[] {
        var dominant := ExpressionMap.GetDominantExpression(face.blendshapes, None, settings);
        expression, confidence := dominant.0, dominant.1;
      } else {
        expression, confidence := Neutral, 0.5;
      }
      var sent2, warned2 := NotifyProgress(callback, EmbeddingExtracted, 60, "얼굴 특징 추출 중...");
      SentNext(callback, 3, sent2);
      timer.Step("embedding", clock.embedding);
      var user := EmbedStage(img, face);
      if user.Err? {
        return Err(user.error), prior + sent + sent2;
      }
      r, notified := MatchOnward(user.value, expression, confidence, quality, session, callback, clock, loader, index,
                                 timer, prior + sent + sent2);
    }

    /** Step 4 and the result, once the embedding is extracted. */
    method MatchOnward(user: Arrays.NdArray, expression: Expression, confidence: real, quality: QualityResult,
                       session: string, callback: Option<Listener>, clock: Clock, loader: Loader.CelebDataLoader,
                       index: CelebIndex.ExpressionIndex, timer: Timing.StepTimer, prior: seq<Event>)
      returns (r: Result<AnalysisResult, AppError>, notified: seq<Event>)
      requires TimerAt(timer, clock, 4) && prior == Sent(callback, 4)
      modifies timer
      ensures var run := FromEmbedding(user, expression, confidence, quality, Parts(), session, clock,
                                       CatalogOf(loader, index));
        r == run.result && notified == Sent(callback, run.reached)
    {
      var sent, warned := NotifyProgress(callback, Matching, 80, "닮은 연예인 찾는 중...");
      SentNext(callback, 4, sent);
      timer.Step("matching", clock.matching);
      var matched := MatchStage(user, expression, loader, index);
      if matched.Err? {
        return Err(matched.error), prior + sent;
      }
      var steps := timer.Stop(clock.stop);
      assert timer.steps == TimerSteps(clock);
      var sent2, warned2 := NotifyProgress(callback, Completed, 100, "분석 완료!");
      SentNext(callback, 5, sent2);
      r := Ok(AnalysisResult(session, expression, confidence, matched.value, quality, PyNum.Trunc(timer.TotalMs())));
      notified := prior + sent + sent2;
    }
  }
}
