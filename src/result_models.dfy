/** The result records of an analysis (backend/app/schemas/result_models.py). */
module ResultModels {
  import opened Wrappers

  /** `Rank`. */
  datatype Rank = Gold | Silver | Bronze

  function RankValue(r: Rank): string {
    match r
    case Gold => "gold"
    case Silver => "silver"
    case Bronze => "bronze"
  }

  /** `Rank(value)`: `None` stands for the `ValueError` of an unknown value. */
  function RankOf(v: string): (r: Option<Rank>)
    ensures r.Some? ==> RankValue(r.value) == v
  {
    if v == "gold" then Some(Gold)
    else if v == "silver" then Some(Silver)
    else if v == "bronze" then Some(Bronze)
    else None
  }

  lemma RankRoundTrip(r: Rank)
    ensures RankOf(RankValue(r)) == Some(r)
  {
  }

  /** `Expression`. */
  datatype Expression = Neutral | Smile | Sad | Surprise

  function ExpressionValue(e: Expression): string {
    match e
    case Neutral => "neutral"
    case Smile => "smile"
    case Sad => "sad"
    case Surprise => "surprise"
  }

  /** `Expression(value)`: `None` stands for the `ValueError` of an unknown value. */
  function ExpressionOf(v: string): (r: Option<Expression>)
    ensures r.Some? ==> ExpressionValue(r.value) == v
  {
    if v == "neutral" then Some(Neutral)
    else if v == "smile" then Some(Smile)
    else if v == "sad" then Some(Sad)
    else if v == "surprise" then Some(Surprise)
    else None
  }

  /** Every label parses back to its member, and only the four labels parse. */
  lemma ExpressionRoundTrip(e: Expression, v: string)
    ensures ExpressionOf(ExpressionValue(e)) == Some(e)
    ensures ExpressionOf(v).Some? <==> v in {"neutral", "smile", "sad", "surprise"}
  {
  }

  /** `QualityResult`. */
  datatype QualityResult = QualityResult(
    isValid: bool,
    isBlurry: bool,
    isDark: bool,
    isBright: bool,
    faceSizeOk: bool,
    faceCentered: bool,
    blurScore: real,
    brightnessScore: real)

  /** `QualityResult()` with every field at its default. */
  const DefaultQuality := QualityResult(true, false, false, false, true, true, 0.0, 0.0)

  /** The `k`-th issue name in the order `issues` checks them. */
  function IssueName(k: nat): string
    requires k < 5
  {
    if k == 0 then "blurry"
    else if k == 1 then "dark"
    else if k == 2 then "bright"
    else if k == 3 then "face_too_small"
    else "face_not_centered"
  }

  /** Whether the check behind the `k`-th issue name failed. */
  predicate Failing(q: QualityResult, k: nat)
    requires k < 5
  {
    if k == 0 then q.isBlurry
    else if k == 1 then q.isDark
    else if k == 2 then q.isBright
    else if k == 3 then !q.faceSizeOk
    else !q.faceCentered
  }

  function When(b: bool, name: string): seq<string> {
    if b then [name] else []
  }

  /** `QualityResult.issues`. */
  function Issues(q: QualityResult): (r: seq<string>)
    ensures |r| <= 5
  {
    When(q.isBlurry, "blurry") + When(q.isDark, "dark") + When(q.isBright, "bright")
    + When(!q.faceSizeOk, "face_too_small") + When(!q.faceCentered, "face_not_centered")
  }

  /** The failing checks from the `k`-th on, in order: a reference
      definition of `issues` over `IssueName`. */
  function Selected(q: QualityResult, k: nat): seq<string>
    requires k <= 5
    decreases 5 - k
  {
    if k == 5 then [] else When(Failing(q, k), IssueName(k)) + Selected(q, k + 1)
  }

  lemma IssuesSelected(q: QualityResult)
    ensures Issues(q) == Selected(q, 0)
  {
    var w0, w1, w2 := When(q.isBlurry, "blurry"), When(q.isDark, "dark"), When(q.isBright, "bright");
    var w3, w4 := When(!q.faceSizeOk, "face_too_small"), When(!q.faceCentered, "face_not_centered");
    assert Selected(q, 4) == w4 by { assert Selected(q, 5) == []; }
    assert Selected(q, 3) == w3 + w4;
    assert Selected(q, 2) == w2 + (w3 + w4);
    assert Selected(q, 1) == w1 + (w2 + (w3 + w4));
    assert Selected(q, 0) == w0 + (w1 + (w2 + (w3 + w4)));
    assert Issues(q) == w0 + w1 + w2 + w3 + w4;
    Regroup(w0, w1, w2, w3, w4);
  }

  lemma Regroup<T>(a: seq<T>, b: seq<T>, c: seq<T>, d: seq<T>, e: seq<T>)
    ensures a + b + c + d + e == a + (b + (c + (d + e)))
  {
  }

  /** The positions in the fixed order of the names `Selected` lists: all failing,
      all from `k` on, strictly increasing. */
  lemma {:induction false} SelectedPicks(q: QualityResult, k: nat) returns (picks: seq<nat>)
    requires k <= 5
    ensures |picks| == |Selected(q, k)|
    ensures forall i :: 0 <= i < |picks| ==>
      k <= picks[i] < 5 && IssueName(picks[i]) == Selected(q, k)[i] && Failing(q, picks[i])
    ensures forall i, j :: 0 <= i < j < |picks| ==> picks[i] < picks[j]
    decreases 5 - k
  {
    if k == 5 {
      picks := [];
    } else {
      var rest := SelectedPicks(q, k + 1);
      var tail := Selected(q, k + 1);
      if Failing(q, k) {
        picks := [k] + rest;
        var sel := Selected(q, k);
        assert sel == [IssueName(k)] + tail;
        forall i | 0 <= i < |picks|
          ensures k <= picks[i] < 5 && IssueName(picks[i]) == sel[i] && Failing(q, picks[i])
        {
          if i > 0 {
            assert picks[i] == rest[i - 1] && sel[i] == tail[i - 1];
          }
        }
      } else {
        picks := rest;
        assert Selected(q, k) == tail;
      }
    }
  }

  /** `issues` names exactly the failing checks, each once, in the fixed order:
      it is the subsequence of the fixed order picked by the failures. */
  lemma IssuesExactly(q: QualityResult)
    ensures forall k :: 0 <= k < 5 ==> (IssueName(k) in Issues(q) <==> Failing(q, k))
    ensures exists picks: seq<nat> ::
      |picks| == |Issues(q)|
      && (forall i :: 0 <= i < |picks| ==> picks[i] < 5 && IssueName(picks[i]) == Issues(q)[i])
      && (forall i, j :: 0 <= i < j < |picks| ==> picks[i] < picks[j])
  {
    IssuesSelected(q);
    var picks := SelectedPicks(q, 0);
    forall k | 0 <= k < 5 ensures IssueName(k) in Issues(q) <==> Failing(q, k) {
      SelectedHas(q, 0, k);
    }
  }

  /** A name from the `k`-th on is listed iff its check failed. */
  lemma {:induction false} SelectedHas(q: QualityResult, k: nat, m: nat)
    requires k <= m < 5
    ensures IssueName(m) in Selected(q, k) <==> Failing(q, m)
    decreases 5 - k
  {
    var tail := Selected(q, k + 1);
    assert Selected(q, k) == When(Failing(q, k), IssueName(k)) + tail;
    if m == k {
      if m < 4 { NotLater(q, k + 1, m); }
    } else {
      SelectedHas(q, k + 1, m);
      if IssueName(m) == IssueName(k) { OrderDistinct(m, k); }
    }
  }

  /** No name before the `k`-th is listed from the `k`-th on. */
  lemma {:induction false} NotLater(q: QualityResult, k: nat, m: nat)
    requires m < k <= 5
    ensures IssueName(m) !in Selected(q, k)
    decreases 5 - k
  {
    if k < 5 {
      NotLater(q, k + 1, m);
      if IssueName(m) == IssueName(k) { OrderDistinct(m, k); }
    }
  }

  lemma OrderDistinct(a: nat, b: nat)
    requires a < 5 && b < 5 && IssueName(a) == IssueName(b)
    ensures a == b
  {
  }

  /** A default result is valid and has no issues. */
  lemma DefaultQualityClean()
    ensures DefaultQuality.isValid && Issues(DefaultQuality) == []
  {
  }

  /** `SimilarityResult`. */
  datatype SimilarityResult = SimilarityResult(celebId: string, name: string, expression: string,
                                               rawSimilarity: real, scaledScore: real)

  /** `RankingResult`. */
  datatype RankingResult = RankingResult(celebId: string, name: string, expression: string,
                                         score: real, rank: Rank, imageUrl: Option<string>)

  /** `AnalysisResult`. */
  datatype AnalysisResult = AnalysisResult(sessionId: string, detectedExpression: Expression,
                                           expressionConfidence: real, topMatches: seq<RankingResult>,
                                           quality: QualityResult, analysisTimeMs: int)

  /** One entry of `matches` in the response. */
  datatype MatchDict = MatchDict(celebId: string, name: string, similarityScore: real, rank: nat,
                                 expression: string, imageUrl: Option<string>)

  datatype QualityFlags = QualityFlags(isBlurry: bool, isDark: bool, isBright: bool,
                                       faceSizeOk: bool, faceCentered: bool)

  datatype ResponseDict = ResponseDict(sessionId: string, detectedExpression: string,
                                       expressionConfidence: real, matches: seq<MatchDict>,
                                       qualityFlags: QualityFlags, analysisTimeMs: int)

  function MatchesFrom(ms: seq<RankingResult>, first: nat): (r: seq<MatchDict>)
    ensures |r| == |ms|
    ensures forall i :: 0 <= i < |ms| ==> r[i] == MatchDict(ms[i].celebId, ms[i].name, ms[i].score,
                                                          first + i, ms[i].expression, ms[i].imageUrl)
  {
    if ms == [] then []
    else [MatchDict(ms[0].celebId, ms[0].name, ms[0].score, first, ms[0].expression, ms[0].imageUrl)]
         + MatchesFrom(ms[1..], first + 1)
  }

  /** `AnalysisResult.to_response_dict`. */
  function ToResponseDict(a: AnalysisResult): (d: ResponseDict)
    ensures d.sessionId == a.sessionId && d.analysisTimeMs == a.analysisTimeMs
    ensures d.detectedExpression == ExpressionValue(a.detectedExpression)
    ensures d.expressionConfidence == a.expressionConfidence
    ensures |d.matches| == |a.topMatches|
    ensures forall i :: 0 <= i < |d.matches| ==>
      d.matches[i].rank == i + 1 && d.matches[i].celebId == a.topMatches[i].celebId
      && d.matches[i].name == a.topMatches[i].name
      && d.matches[i].similarityScore == a.topMatches[i].score
      && d.matches[i].expression == a.topMatches[i].expression
      && d.matches[i].imageUrl == a.topMatches[i].imageUrl
    ensures d.qualityFlags == QualityFlags(a.quality.isBlurry, a.quality.isDark, a.quality.isBright,
                                           a.quality.faceSizeOk, a.quality.faceCentered)
  {
    ResponseDict(a.sessionId, ExpressionValue(a.detectedExpression), a.expressionConfidence,
                 MatchesFrom(a.topMatches, 1),
                 QualityFlags(a.quality.isBlurry, a.quality.isDark, a.quality.isBright,
                              a.quality.faceSizeOk, a.quality.faceCentered),
                 a.analysisTimeMs)
  }
}
