/** Blendshape scoring and expression detection
    (backend/app/domain/expression/expression_map.py). */
module ExpressionMap {
  import opened Wrappers
  import opened Text
  import opened ResultModels
  import Config

  /** Blendshape channel name to value, as produced by the face landmarker. */
  type Blendshapes = map<string, real>

  /** `EXPRESSION_BLENDSHAPES`: the weighted channels of each expression, in
      dictionary order. */
  function Weights(e: Expression): (ws: seq<(string, real)>)
    ensures forall i :: 0 <= i < |ws| ==> ws[i].1 > 0.0
  {
    match e
    case Smile => [("mouthSmileLeft", 0.3), ("mouthSmileRight", 0.3), ("cheekSquintLeft", 0.15),
                   ("cheekSquintRight", 0.15), ("eyeSquintLeft", 0.05), ("eyeSquintRight", 0.05)]
    case Sad => [("mouthFrownLeft", 0.25), ("mouthFrownRight", 0.25), ("browDownLeft", 0.15),
                 ("browDownRight", 0.15), ("browInnerUp", 0.2)]
    case Surprise => [("browOuterUpLeft", 0.2), ("browOuterUpRight", 0.2), ("eyeWideLeft", 0.15),
                      ("eyeWideRight", 0.15), ("jawOpen", 0.15), ("mouthOpen", 0.15)]
    case Neutral => []
  }

  /** `EXPRESSION_THRESHOLDS`. */
  function Threshold(e: Expression): real {
    match e
    case Smile => 0.3
    case Sad => 0.25
    case Surprise => 0.35
    case Neutral => 0.0
  }

  /** Σ value·weight over the channels of `ws` present in `bs`. */
  function TotalScore(bs: Blendshapes, ws: seq<(string, real)>): real {
    if ws == [] then 0.0
    else
      var last := ws[|ws| - 1];
      TotalScore(bs, ws[..|ws| - 1]) + (if last.0 in bs then bs[last.0] * last.1 else 0.0)
  }

  /** Σ weight over the channels of `ws` present in `bs`. */
  function TotalWeight(bs: Blendshapes, ws: seq<(string, real)>): real {
    if ws == [] then 0.0
    else
      var last := ws[|ws| - 1];
      TotalWeight(bs, ws[..|ws| - 1]) + (if last.0 in bs then last.1 else 0.0)
  }

  /** The weighted average of the present channels, 0 when none is present. */
  function ScoreOf(bs: Blendshapes, e: Expression): real {
    var w := TotalWeight(bs, Weights(e));
    if w == 0.0 then 0.0 else TotalScore(bs, Weights(e)) / w
  }

  /** `calculate_expression_score`. */
  method CalculateExpressionScore(bs: Blendshapes, e: Expression) returns (score: real)
    ensures score == ScoreOf(bs, e)
  {
    var ws := Weights(e);
    if ws == [] {
      return 0.0;
    }
    var totalScore := 0.0;
    var totalWeight := 0.0;
    var i := 0;
    while i < |ws|
      invariant 0 <= i <= |ws|
      invariant totalScore == TotalScore(bs, ws[..i]) && totalWeight == TotalWeight(bs, ws[..i])
    {
      var (name, weight) := ws[i];
      assert ws[..i + 1][..i] == ws[..i];
      if name in bs {
        totalScore := totalScore + bs[name] * weight;
        totalWeight := totalWeight + weight;
      }
      i := i + 1;
    }
    assert ws[..|ws|] == ws;
    if totalWeight == 0.0 {
      return 0.0;
    }
    score := totalScore / totalWeight;
  }

  /** Every channel value lies in [0, 1]. */
  ghost predicate InUnit(bs: Blendshapes) {
    forall k :: k in bs ==> 0.0 <= bs[k] <= 1.0
  }

  lemma {:induction false} TotalsBounded(bs: Blendshapes, ws: seq<(string, real)>)
    requires InUnit(bs) && forall i :: 0 <= i < |ws| ==> ws[i].1 > 0.0
    ensures 0.0 <= TotalScore(bs, ws) <= TotalWeight(bs, ws)
    ensures TotalWeight(bs, ws) >= 0.0
  {
    if ws != [] {
      var init := ws[..|ws| - 1];
      assert forall i :: 0 <= i < |init| ==> init[i] == ws[i];
      var last := ws[|ws| - 1];
      TotalsBounded(bs, init);
      TermBounded(bs, last);
      assert TotalScore(bs, ws) == TotalScore(bs, init) + (if last.0 in bs then bs[last.0] * last.1 else 0.0);
      assert TotalWeight(bs, ws) == TotalWeight(bs, init) + (if last.0 in bs then last.1 else 0.0);
    }
  }

  /** One channel adds no more to the score total than to the weight total. */
  lemma TermBounded(bs: Blendshapes, p: (string, real))
    requires InUnit(bs) && p.1 > 0.0
    ensures 0.0 <= (if p.0 in bs then bs[p.0] * p.1 else 0.0) <= (if p.0 in bs then p.1 else 0.0)
  {
    if p.0 in bs {
      ProductBounded(bs[p.0], p.1);
    }
  }

  lemma ProductBounded(v: real, w: real)
    requires 0.0 <= v <= 1.0 && w > 0.0
    ensures 0.0 <= v * w <= w
  {
  }

  /** With every channel value in [0, 1] the score is in [0, 1], the weights
      being positive. */
  lemma ScoreInUnit(bs: Blendshapes, e: Expression)
    requires InUnit(bs)
    ensures 0.0 <= ScoreOf(bs, e) <= 1.0
  {
    var ws := Weights(e);
    TotalsBounded(bs, ws);
    var w := TotalWeight(bs, ws);
    if w != 0.0 {
      DivAtMostOne(TotalScore(bs, ws), w);
    }
  }

  lemma DivAtMostOne(a: real, b: real)
    requires 0.0 <= a <= b && b > 0.0
    ensures 0.0 <= a / b <= 1.0
  {
  }

  lemma {:induction false} TotalsConstant(bs: Blendshapes, ws: seq<(string, real)>, v: real)
    requires forall i :: 0 <= i < |ws| && ws[i].0 in bs ==> bs[ws[i].0] == v
    ensures TotalScore(bs, ws) == v * TotalWeight(bs, ws)
  {
    if ws != [] {
      TotalsConstant(bs, ws[..|ws| - 1], v);
    }
  }

  /** A weighted average: when every present channel of `e` has the same value
      `v`, the score is `v` (or 0 when none is present). */
  lemma ScoreConstant(bs: Blendshapes, e: Expression, v: real)
    requires forall i :: 0 <= i < |Weights(e)| && Weights(e)[i].0 in bs ==> bs[Weights(e)[i].0] == v
    ensures TotalWeight(bs, Weights(e)) != 0.0 ==> ScoreOf(bs, e) == v
    ensures TotalWeight(bs, Weights(e)) == 0.0 ==> ScoreOf(bs, e) == 0.0
  {
    TotalsConstant(bs, Weights(e), v);
  }

  lemma {:induction false} TotalsAbsent(bs: Blendshapes, ws: seq<(string, real)>)
    requires forall i :: 0 <= i < |ws| ==> ws[i].0 !in bs
    ensures TotalScore(bs, ws) == 0.0 && TotalWeight(bs, ws) == 0.0
  {
    if ws != [] { TotalsAbsent(bs, ws[..|ws| - 1]); }
  }

  /** The score is 0 when none of the expression's channels is present, and
      always 0 for NEUTRAL, which has no channels. */
  lemma ScoreAbsent(bs: Blendshapes, e: Expression)
    requires e == Neutral || forall i :: 0 <= i < |Weights(e)| ==> Weights(e)[i].0 !in bs
    ensures ScoreOf(bs, e) == 0.0
  {
    TotalsAbsent(bs, Weights(e));
  }

  /** `ExpressionScore`. */
  datatype ExpressionScore = ExpressionScore(expression: Expression, score: real, confidence: real,
                                             rawScores: map<Expression, real>)

  /** `max(scores, key=scores.get)` over SMILE, SAD, SURPRISE: the first
      maximum wins. */
  function ArgMax(smile: real, sad: real, surprise: real): Expression {
    var first := if sad > smile then Sad else Smile;
    var firstScore := if sad > smile then sad else smile;
    if surprise > firstScore then Surprise else first
  }

  function Pick(e: Expression, smile: real, sad: real, surprise: real): real {
    match e
    case Smile => smile
    case Sad => sad
    case Surprise => surprise
    case Neutral => 0.0
  }

  /** The arg-max is one of the three, its score is at least the others, and
      it is strictly above every expression coming before it. */
  lemma ArgMaxFirst(smile: real, sad: real, surprise: real)
    ensures var e := ArgMax(smile, sad, surprise);
      var m := Pick(e, smile, sad, surprise);
      && e != Neutral && m >= smile && m >= sad && m >= surprise
      && (e == Sad ==> sad > smile)
      && (e == Surprise ==> surprise > smile && surprise > sad)
  {
  }

  /** `min(x, 1.0)`. */
  function AtMostOne(x: real): real {
    if 1.0 < x then 1.0 else x
  }

  /** `detect_expression`. */
  function DetectExpression(bs: Blendshapes): (r: ExpressionScore)
    ensures r.rawScores.Keys == {Neutral, Smile, Sad, Surprise}
  {
    if |bs| == 0 then
      ExpressionScore(Neutral, 0.0, 0.0, map[Neutral := 0.0, Smile := 0.0, Sad := 0.0, Surprise := 0.0])
    else
      var smile, sad, surprise := ScoreOf(bs, Smile), ScoreOf(bs, Sad), ScoreOf(bs, Surprise);
      var best := ArgMax(smile, sad, surprise);
      var top := Pick(best, smile, sad, surprise);
      var threshold := Threshold(best);
      var raw := map[Smile := smile, Sad := sad, Surprise := surprise, Neutral := 1.0 - top];
      if top >= threshold then ExpressionScore(best, top, AtMostOne(top / (threshold + 0.1)), raw)
      else ExpressionScore(Neutral, 1.0 - top, 1.0 - top, raw)
  }

  /** The largest of the three scores. */
  function Top(bs: Blendshapes): real {
    var smile, sad, surprise := ScoreOf(bs, Smile), ScoreOf(bs, Sad), ScoreOf(bs, Surprise);
    if smile >= sad && smile >= surprise then smile else if sad >= surprise then sad else surprise
  }

  /** Empty blendshapes give NEUTRAL with score, confidence and every raw score 0. */
  lemma DetectEmpty(bs: Blendshapes)
    requires |bs| == 0
    ensures var r := DetectExpression(bs);
      r.expression == Neutral && r.score == 0.0 && r.confidence == 0.0
      && forall e :: e in r.rawScores ==> r.rawScores[e] == 0.0
  {
  }

  /** Otherwise the raw scores are the three computed scores and `1 - max` for
      NEUTRAL; an expression is detected iff the largest score reaches that
      expression's threshold, with confidence `min(max / (threshold + 0.1), 1)`
      and score `max`; failing that NEUTRAL is detected with score and
      confidence `1 - max`. */
  lemma DetectRule(bs: Blendshapes)
    requires |bs| > 0
    ensures var r := DetectExpression(bs);
      var best := ArgMax(ScoreOf(bs, Smile), ScoreOf(bs, Sad), ScoreOf(bs, Surprise));
      && r.rawScores[Smile] == ScoreOf(bs, Smile) && r.rawScores[Sad] == ScoreOf(bs, Sad)
      && r.rawScores[Surprise] == ScoreOf(bs, Surprise) && r.rawScores[Neutral] == 1.0 - Top(bs)
      && (r.expression != Neutral <==> Top(bs) >= Threshold(best))
      && (r.expression != Neutral ==>
            r.expression == best && r.score == Top(bs)
            && r.confidence == AtMostOne(Top(bs) / (Threshold(best) + 0.1)))
      && (r.expression == Neutral ==> r.score == 1.0 - Top(bs) && r.confidence == 1.0 - Top(bs))
  {
    ArgMaxFirst(ScoreOf(bs, Smile), ScoreOf(bs, Sad), ScoreOf(bs, Surprise));
  }

  /** With channel values in [0, 1] the confidence is in [0, 1]. */
  lemma DetectConfidenceInUnit(bs: Blendshapes)
    requires InUnit(bs)
    ensures 0.0 <= DetectExpression(bs).confidence <= 1.0
  {
    if |bs| > 0 {
      ScoreInUnit(bs, Smile);
      ScoreInUnit(bs, Sad);
      ScoreInUnit(bs, Surprise);
      var smile, sad, surprise := ScoreOf(bs, Smile), ScoreOf(bs, Sad), ScoreOf(bs, Surprise);
      var best := ArgMax(smile, sad, surprise);
      var top := Pick(best, smile, sad, surprise);
      NonNegativeQuotient(top, Threshold(best) + 0.1);
    }
  }

  lemma NonNegativeQuotient(a: real, b: real)
    requires a >= 0.0 && b > 0.0
    ensures a / b >= 0.0
  {
  }

  /** The blendshapes of the `sample_blendshapes` test fixture. */
  const SampleBlendshapes: Blendshapes :=
    map["mouthSmileLeft" := 0.8, "mouthSmileRight" := 0.75, "cheekSquintLeft" := 0.5,
        "cheekSquintRight" := 0.45, "eyeSquintLeft" := 0.3, "eyeSquintRight" := 0.25]

  /** The SMILE score with all six SMILE channels present. */
  lemma SmileScore(bs: Blendshapes, a: real, b: real, c: real, d: real, e: real, f: real)
    requires "mouthSmileLeft" in bs && bs["mouthSmileLeft"] == a
    requires "mouthSmileRight" in bs && bs["mouthSmileRight"] == b
    requires "cheekSquintLeft" in bs && bs["cheekSquintLeft"] == c
    requires "cheekSquintRight" in bs && bs["cheekSquintRight"] == d
    requires "eyeSquintLeft" in bs && bs["eyeSquintLeft"] == e
    requires "eyeSquintRight" in bs && bs["eyeSquintRight"] == f
    ensures ScoreOf(bs, Smile) == 0.3 * a + 0.3 * b + 0.15 * c + 0.15 * d + 0.05 * e + 0.05 * f
  {
    var ws := Weights(Smile);
    assert ws[..1][..0] == [] && ws[..2][..1] == ws[..1] && ws[..3][..2] == ws[..2];
    assert ws[..4][..3] == ws[..3] && ws[..5][..4] == ws[..4] && ws[..5] == ws[..|ws| - 1];
    assert ws[0].0 == "mouthSmileLeft" && ws[1].0 == "mouthSmileRight" && ws[2].0 == "cheekSquintLeft";
    assert ws[3].0 == "cheekSquintRight" && ws[4].0 == "eyeSquintLeft" && ws[5].0 == "eyeSquintRight";
    assert TotalWeight(bs, ws[..1]) == 0.3 && TotalScore(bs, ws[..1]) == 0.3 * a;
    assert TotalWeight(bs, ws[..2]) == 0.6 && TotalScore(bs, ws[..2]) == 0.3 * a + 0.3 * b;
    assert TotalWeight(bs, ws[..3]) == 0.75 && TotalScore(bs, ws[..3]) == 0.3 * a + 0.3 * b + 0.15 * c;
    assert TotalWeight(bs, ws[..4]) == 0.9
      && TotalScore(bs, ws[..4]) == 0.3 * a + 0.3 * b + 0.15 * c + 0.15 * d;
    assert TotalWeight(bs, ws[..5]) == 0.95
      && TotalScore(bs, ws[..5]) == 0.3 * a + 0.3 * b + 0.15 * c + 0.15 * d + 0.05 * e;
    assert TotalWeight(bs, ws) == 1.0
      && TotalScore(bs, ws) == 0.3 * a + 0.3 * b + 0.15 * c + 0.15 * d + 0.05 * e + 0.05 * f;
  }

  lemma SampleChannels()
    ensures forall i :: 0 <= i < |Weights(Sad)| ==> Weights(Sad)[i].0 !in SampleBlendshapes
    ensures forall i :: 0 <= i < |Weights(Surprise)| ==> Weights(Surprise)[i].0 !in SampleBlendshapes
    ensures |SampleBlendshapes| > 0
  {
    assert SampleBlendshapes.Keys == {"mouthSmileLeft", "mouthSmileRight", "cheekSquintLeft",
                                      "cheekSquintRight", "eyeSquintLeft", "eyeSquintRight"};
  }

  /** The fixture is detected as SMILE with score 0.635 and confidence 1. */
  lemma SampleIsSmile()
    ensures DetectExpression(SampleBlendshapes).expression == Smile
    ensures DetectExpression(SampleBlendshapes).score == 0.635
    ensures DetectExpression(SampleBlendshapes).confidence == 1.0
  {
    var bs := SampleBlendshapes;
    SmileScore(bs, 0.8, 0.75, 0.5, 0.45, 0.3, 0.25);
    SampleChannels();
    ScoreAbsent(bs, Sad);
    ScoreAbsent(bs, Surprise);
  }

  /** `get_expression_label`. */
  function ExpressionLabel(e: Expression): (text: string)
    ensures text != "알 수 없음"
  {
    match e
    case Neutral => "무표정"
    case Smile => "웃음"
    case Sad => "슬픔"
    case Surprise => "놀람"
  }

  /** Distinct expressions get distinct labels. */
  lemma ExpressionLabelsDistinct(a: Expression, b: Expression)
    requires ExpressionLabel(a) == ExpressionLabel(b)
    ensures a == b
  {
  }

  /** `validate_expression`: the lower-cased text parsed as an `Expression`. */
  function ValidateExpression(s: string): (r: Option<Expression>)
    ensures r.Some? <==> Lower(s) in {"neutral", "smile", "sad", "surprise"}
    ensures r.Some? ==> ExpressionValue(r.value) == Lower(s)
  {
    ExpressionRoundTrip(Neutral, Lower(s));
    ExpressionOf(Lower(s))
  }

  lemma {:induction false} LowerUnchanged(s: string)
    requires forall i :: 0 <= i < |s| ==> !('A' <= s[i] <= 'Z')
    ensures Lower(s) == s
  {
  }

  /** Each label is accepted in its own spelling and in capitals. */
  lemma ValidateCaseInsensitive(e: Expression, s: string)
    requires |s| == |ExpressionValue(e)|
    requires forall i :: 0 <= i < |s| ==> LowerChar(s[i]) == ExpressionValue(e)[i]
    ensures ValidateExpression(s) == Some(e)
    ensures ValidateExpression(ExpressionValue(e)) == Some(e)
  {
    assert Lower(s) == ExpressionValue(e);
    ExpressionRoundTrip(e, "");
    LowerUnchanged(ExpressionValue(e));
  }

  /** `get_dominant_expression`: NEUTRAL when the confidence is below
      `min_confidence` (the setting's 0.3 by default), always with the measured
      confidence. */
  function GetDominantExpression(bs: Blendshapes, minConfidence: Option<real>, settings: Config.Settings)
    : (r: (Expression, real))
    ensures r.1 == DetectExpression(bs).confidence
    ensures r.0 == Neutral || r.0 == DetectExpression(bs).expression
    ensures r.1 < minConfidence.GetOr(settings.expressionConfidenceThreshold) ==> r.0 == Neutral
    ensures r.1 >= minConfidence.GetOr(settings.expressionConfidenceThreshold) ==> r.0 == DetectExpression(bs).expression
  {
    var threshold := minConfidence.GetOr(settings.expressionConfidenceThreshold);
    var result := DetectExpression(bs);
    if result.confidence < threshold then (Neutral, result.confidence) else (result.expression, result.confidence)
  }
}
