/** Display scores from similarities (backend/app/domain/ranking/score_scale.py). */
module ScoreScale {
  import opened Wrappers
  import opened PyDict
  import Sorting
  import PyNum

  /** `max(0.0, min(1.0, s))`. */
  function Clamp01(s: real): (r: real)
    ensures 0.0 <= r <= 1.0
    ensures 0.0 <= s <= 1.0 ==> r == s
    ensures s < 0.0 ==> r == 0.0
    ensures s > 1.0 ==> r == 1.0
  {
    if s < 0.0 then 0.0 else if s > 1.0 then 1.0 else s
  }

  /** `min + v * (max - min)`: a value in [0, 1] lands between the ends. */
  function Lerp(v: real, minScore: real, maxScore: real): real {
    minScore + v * (maxScore - minScore)
  }

  /** The common tail of the curve scalers: `round(min + v * (max - min), 1)`. */
  function Spread(v: real, minScore: real, maxScore: real): real {
    PyNum.Round1(Lerp(v, minScore, maxScore))
  }

  /** A curve value in [0, 1] lands in [min, max], whatever the rounding, when
      the ends have at most one decimal place. */
  lemma SpreadWithin(v: real, minScore: real, maxScore: real)
    requires 0.0 <= v <= 1.0
    requires minScore <= maxScore && PyNum.IsTenth(minScore) && PyNum.IsTenth(maxScore)
    ensures minScore <= Spread(v, minScore, maxScore) <= maxScore
  {
    MulUnit(v, minScore, maxScore);
    PyNum.Round1Within(Lerp(v, minScore, maxScore), minScore, maxScore);
  }

  /** `linear_scale`. */
  function LinearScale(s: real, minScore: real, maxScore: real): real {
    Spread(Clamp01(s), minScore, maxScore)
  }

  /** Any similarity, even outside [0, 1], scales into [min, max]. */
  lemma LinearWithin(s: real, minScore: real, maxScore: real)
    requires minScore <= maxScore && PyNum.IsTenth(minScore) && PyNum.IsTenth(maxScore)
    ensures minScore <= LinearScale(s, minScore, maxScore) <= maxScore
  {
    SpreadWithin(Clamp01(s), minScore, maxScore);
  }

  /** Similarity 0 (or less) scores `min`, similarity 1 (or more) scores `max`. */
  lemma LinearEnds(s: real, minScore: real, maxScore: real)
    requires PyNum.IsTenth(minScore) && PyNum.IsTenth(maxScore)
    ensures s <= 0.0 ==> LinearScale(s, minScore, maxScore) == minScore
    ensures s >= 1.0 ==> LinearScale(s, minScore, maxScore) == maxScore
  {
    PyNum.Round1Tenth(minScore);
    PyNum.Round1Tenth(maxScore);
  }

  lemma LinearHalf()
    ensures LinearScale(0.5, 50.0, 100.0) == 75.0
    ensures LinearScale(0.5, 50.0, 99.0) == 74.5
  {
    PyNum.Round1Tenth(75.0);
    PyNum.Round1Tenth(74.5);
  }

  lemma LinearMonotone(s: real, t: real, minScore: real, maxScore: real)
    requires s <= t && minScore <= maxScore
    ensures LinearScale(s, minScore, maxScore) <= LinearScale(t, minScore, maxScore)
  {
    SpreadMonotone(Clamp01(s), Clamp01(t), minScore, maxScore);
  }

  lemma SpreadMonotone(a: real, b: real, minScore: real, maxScore: real)
    requires a <= b && minScore <= maxScore
    ensures Spread(a, minScore, maxScore) <= Spread(b, minScore, maxScore)
  {
    MulMonotone(a, b, maxScore - minScore);
    PyNum.Round1Monotone(Lerp(a, minScore, maxScore), Lerp(b, minScore, maxScore));
  }

  lemma MulUnit(v: real, lo: real, hi: real)
    requires 0.0 <= v <= 1.0 && lo <= hi
    ensures lo <= Lerp(v, lo, hi) <= hi
  {
    var w := hi - lo;
    assert 0.0 <= v * w;
    assert w - v * w == (1.0 - v) * w;
  }

  lemma MulMonotone(a: real, b: real, w: real)
    requires a <= b && 0.0 <= w
    ensures a * w <= b * w
  {
    assert b * w - a * w == (b - a) * w;
  }

  /** The transcendental functions the sigmoid and power scalers use:
      `logistic(z) = 1 / (1 + exp(-z))` and `pow(x, p) = x ** p`. */
  datatype Maths = Maths(logistic: real -> real, pow: (real, real) -> real)

  /** `sigmoid_scale`. */
  function SigmoidScale(s: real, center: real, steepness: real, minScore: real, maxScore: real, m: Maths): real {
    var x := Clamp01(s);
    Spread(m.logistic(steepness * (x - center)), minScore, maxScore)
  }

  /** `power_scale`. */
  function PowerScale(s: real, power: real, minScore: real, maxScore: real, m: Maths): real {
    Spread(m.pow(Clamp01(s), power), minScore, maxScore)
  }

  /** The breakpoints in ascending order: `sorted(percentile_map.keys())`. */
  function Thresholds(pmap: Dict<real, real>): (ts: seq<real>)
    ensures multiset(ts) == multiset(pmap.keys)
    ensures Sorting.Sorted(ts, RealLe)
  {
    Sorting.SortByPermutation(pmap.keys, RealLe);
    RealLeTotal();
    Sorting.SortBySorted(pmap.keys, RealLe);
    Sorting.SortBy(pmap.keys, RealLe)
  }

  function RealLe(a: real, b: real): bool { a <= b }

  lemma RealLeTotal()
    ensures Sorting.TotalPreorder(RealLe)
  {
  }

  /** The loop of `percentile_scale` from breakpoint `i` on: the first
      breakpoint at or above `s` decides; none means `max`. */
  function Search(s: real, ts: seq<real>, scores: map<real, real>, i: nat, minScore: real, maxScore: real): real
    requires i <= |ts|
    requires forall t <- ts :: t in scores
    requires 0 < i ==> s > ts[i - 1]
    decreases |ts| - i
  {
    if i == |ts| then maxScore
    else if s <= ts[i] then
      if i == 0 then minScore
      else Interpolate(s, ts[i - 1], scores[ts[i - 1]], ts[i], scores[ts[i]])
    else Search(s, ts, scores, i + 1, minScore, maxScore)
  }

  /** The rounded linear interpolation between two breakpoints. */
  function Interpolate(s: real, t0: real, score0: real, t1: real, score1: real): real
    requires t0 < t1
  {
    var ratio := (s - t0) / (t1 - t0);
    PyNum.Round1(score0 + ratio * (score1 - score0))
  }

  /** At the upper breakpoint the interpolation gives that breakpoint's score. */
  lemma InterpolateAtTop(t0: real, score0: real, t1: real, score1: real)
    requires t0 < t1 && PyNum.IsTenth(score1)
    ensures Interpolate(t1, t0, score0, t1, score1) == score1
  {
    var d := t1 - t0;
    assert d / d == 1.0;
    assert score0 + 1.0 * (score1 - score0) == score1;
    PyNum.Round1Tenth(score1);
  }

  /** `percentile_scale`. */
  function PercentileScale(s: real, pmap: Dict<real, real>, minScore: real, maxScore: real): real
    requires Valid(pmap)
  {
    var ts := Thresholds(pmap);
    assert forall t <- ts :: t in pmap.vals by {
      forall t <- ts ensures t in pmap.vals {
        assert t in multiset(pmap.keys);
        var i :| 0 <= i < |pmap.keys| && pmap.keys[i] == t;
      }
    }
    Search(s, ts, pmap.vals, 0, minScore, maxScore)
  }

  lemma {:induction false} SearchAbove(s: real, ts: seq<real>, scores: map<real, real>, i: nat, minScore: real, maxScore: real)
    requires i <= |ts|
    requires forall t <- ts :: t in scores
    requires forall j :: 0 <= j < |ts| ==> s > ts[j]
    ensures Search(s, ts, scores, i, minScore, maxScore) == maxScore
    decreases |ts| - i
  {
    if i < |ts| { SearchAbove(s, ts, scores, i + 1, minScore, maxScore); }
  }

  lemma {:induction false} SearchBetween(s: real, ts: seq<real>, scores: map<real, real>, i: nat, k: nat, minScore: real, maxScore: real)
    requires i <= k < |ts| && 0 < k
    requires forall t <- ts :: t in scores
    requires 0 < i ==> s > ts[i - 1]
    requires Sorting.Sorted(ts, RealLe)
    requires ts[k - 1] < s <= ts[k]
    ensures Search(s, ts, scores, i, minScore, maxScore)
      == Interpolate(s, ts[k - 1], scores[ts[k - 1]], ts[k], scores[ts[k]])
    decreases k - i
  {
    if i < k {
      assert RealLe(ts[i], ts[k - 1]);
      SearchBetween(s, ts, scores, i + 1, k, minScore, maxScore);
    }
  }

  /** At or below the smallest breakpoint the score is `min`. */
  lemma PercentileBelow(s: real, pmap: Dict<real, real>, minScore: real, maxScore: real)
    requires Valid(pmap) && pmap.keys != []
    requires forall j :: 0 <= j < |pmap.keys| ==> s <= pmap.keys[j]
    ensures PercentileScale(s, pmap, minScore, maxScore) == minScore
  {
    var ts := Thresholds(pmap);
    assert ts[0] in multiset(pmap.keys);
  }

  /** Above the largest breakpoint, or with no breakpoints, the score is `max`. */
  lemma PercentileAbove(s: real, pmap: Dict<real, real>, minScore: real, maxScore: real)
    requires Valid(pmap)
    requires forall j :: 0 <= j < |pmap.keys| ==> s > pmap.keys[j]
    ensures PercentileScale(s, pmap, minScore, maxScore) == maxScore
  {
    var ts := Thresholds(pmap);
    forall j | 0 <= j < |ts| ensures s > ts[j] {
      assert ts[j] in multiset(pmap.keys);
    }
    assert forall t <- ts :: t in pmap.vals by {
      forall t <- ts ensures t in pmap.vals {
        assert t in multiset(pmap.keys);
      }
    }
    SearchAbove(s, ts, pmap.vals, 0, minScore, maxScore);
  }

  /** Between two adjacent breakpoints the score interpolates their scores,
      and at the upper breakpoint it is that breakpoint's score. */
  lemma PercentileBetween(s: real, pmap: Dict<real, real>, k: nat, minScore: real, maxScore: real)
    requires Valid(pmap)
    requires 0 < k < |pmap.keys|
    requires Thresholds(pmap)[k - 1] < s <= Thresholds(pmap)[k]
    ensures var ts := Thresholds(pmap);
      && ts[k - 1] in pmap.vals && ts[k] in pmap.vals
      && PercentileScale(s, pmap, minScore, maxScore)
         == Interpolate(s, ts[k - 1], pmap.vals[ts[k - 1]], ts[k], pmap.vals[ts[k]])
      && (s == ts[k] && PyNum.IsTenth(pmap.vals[ts[k]]) ==>
          PercentileScale(s, pmap, minScore, maxScore) == pmap.vals[ts[k]])
  {
    var ts := Thresholds(pmap);
    assert forall t <- ts :: t in pmap.vals by {
      forall t <- ts ensures t in pmap.vals {
        assert t in multiset(pmap.keys);
      }
    }
    SearchBetween(s, ts, pmap.vals, 0, k, minScore, maxScore);
    if s == ts[k] && PyNum.IsTenth(pmap.vals[ts[k]]) {
      InterpolateAtTop(ts[k - 1], pmap.vals[ts[k - 1]], ts[k], pmap.vals[ts[k]]);
    }
  }

  /** `DEFAULT_PERCENTILE_MAP`. */
  const DefaultPercentileMap: Dict<real, real> :=
    Dict([0.3, 0.5, 0.7, 0.8, 0.9, 1.0],
         map[0.3 := 50.0, 0.5 := 70.0, 0.7 := 85.0, 0.8 := 90.0, 0.9 := 95.0, 1.0 := 99.0])

  lemma DefaultPercentileMapValid()
    ensures Valid(DefaultPercentileMap)
    ensures Thresholds(DefaultPercentileMap) == DefaultPercentileMap.keys
  {
    SixBreakpoints(DefaultPercentileMap, 0.3, 0.5, 0.7, 0.8, 0.9, 1.0);
  }

  /** Six increasing breakpoints, each with a score, make a valid map whose
      thresholds are its keys. */
  lemma SixBreakpoints(pmap: Dict<real, real>, a: real, b: real, c: real, d: real, e: real, f: real)
    requires pmap.keys == [a, b, c, d, e, f] && a < b < c < d < e < f
    requires pmap.vals.Keys == {a, b, c, d, e, f}
    ensures Valid(pmap) && Thresholds(pmap) == pmap.keys
  {
    var keys := pmap.keys;
    assert pmap.vals.Keys == (set i | 0 <= i < |keys| :: keys[i]) by {
      assert keys[0] == a && keys[1] == b && keys[2] == c;
      assert keys[3] == d && keys[4] == e && keys[5] == f;
    }
    Increasing(keys);
    assert forall i, j :: 0 <= i < j < |keys| ==> keys[i] != keys[j];
    assert Sorting.Sorted(keys, RealLe);
    Sorting.SortByIdentity(keys, RealLe);
  }

  /** A sequence that rises at every step rises strictly throughout. */
  lemma {:induction false} Increasing(s: seq<real>)
    requires forall i :: 0 <= i < |s| - 1 ==> s[i] < s[i + 1]
    ensures forall i, j :: 0 <= i < j < |s| ==> s[i] < s[j]
  {
    if |s| > 1 {
      var t := s[1..];
      Increasing(t);
      forall j | 1 < j < |s| ensures s[0] < s[j] {
        assert t[0] < t[j - 1];
      }
    }
  }

  /** A similarity of 0.6 lies half way between the 0.5 and 0.7 breakpoints. */
  lemma DefaultPercentileExample()
    ensures Valid(DefaultPercentileMap)
    ensures PercentileScale(0.6, DefaultPercentileMap, 50.0, 99.0) == 77.5
    ensures PercentileScale(0.7, DefaultPercentileMap, 50.0, 99.0) == 85.0
  {
    DefaultPercentileMapValid();
    var pm := DefaultPercentileMap;
    var ts := Thresholds(pm);
    assert ts[1] == 0.5 && ts[2] == 0.7;
    assert pm.vals[0.5] == 70.0 && pm.vals[0.7] == 85.0;
    PercentileBetween(0.6, pm, 2, 50.0, 99.0);
    assert PercentileScale(0.6, pm, 50.0, 99.0) == Interpolate(0.6, 0.5, 70.0, 0.7, 85.0);
    MidwayExample();
    PercentileBetween(0.7, pm, 2, 50.0, 99.0);
    InterpolateAtTop(0.5, 70.0, 0.7, 85.0);
    assert PercentileScale(0.7, pm, 50.0, 99.0) == Interpolate(0.7, 0.5, 70.0, 0.7, 85.0);
  }

  lemma MidwayExample()
    ensures Interpolate(0.6, 0.5, 70.0, 0.7, 85.0) == 77.5
  {
    assert (0.6 - 0.5) / (0.7 - 0.5) == 0.5;
    assert 70.0 + 0.5 * (85.0 - 70.0) == 77.5;
    PyNum.Round1Tenth(77.5);
  }

  /** The keyword arguments `ScoreScaler` reads. `None` is a keyword that
      was not passed; a keyword passed explicitly as `None` is not modelled
      (`kwargs.get` returns that `None` rather than the default, and the
      scaling that uses it fails). */
  datatype Kwargs = Kwargs(center: Option<real>, steepness: Option<real>, power: Option<real>,
                           percentileMap: Option<Dict<real, real>>)

  /** `ScoreScaler`: its fields are fixed at construction. */
  datatype Scaler = Scaler(methodName: string, minScore: real, maxScore: real, kwargs: Kwargs)

  /** The scale function `_get_scale_func` picks. */
  datatype Curve = LinearCurve | SigmoidCurve(center: real, steepness: real)
                 | PowerCurve(power: real) | PercentileCurve(pmap: Dict<real, real>)

  function CurveOf(sc: Scaler): (c: Curve)
    ensures sc.methodName !in {"linear", "sigmoid", "power", "percentile"} ==> c == LinearCurve
    ensures c.PercentileCurve? ==> c.pmap == sc.kwargs.percentileMap.GetOr(DefaultPercentileMap)
  {
    if sc.methodName == "linear" then LinearCurve
    else if sc.methodName == "sigmoid" then
      SigmoidCurve(sc.kwargs.center.GetOr(0.5), sc.kwargs.steepness.GetOr(10.0))
    else if sc.methodName == "power" then PowerCurve(sc.kwargs.power.GetOr(0.5))
    else if sc.methodName == "percentile" then
      PercentileCurve(sc.kwargs.percentileMap.GetOr(DefaultPercentileMap))
    else LinearCurve
  }

  /** The percentile map given to a scaler is a real dictionary. */
  predicate ScalerValid(sc: Scaler) {
    sc.kwargs.percentileMap.Some? ==> Valid(sc.kwargs.percentileMap.value)
  }

  /** `ScoreScaler.scale`. */
  function Scale(sc: Scaler, s: real, m: Maths): real
    requires ScalerValid(sc)
  {
    DefaultPercentileMapValid();
    match CurveOf(sc)
    case LinearCurve => LinearScale(s, sc.minScore, sc.maxScore)
    case SigmoidCurve(c, k) => SigmoidScale(s, c, k, sc.minScore, sc.maxScore, m)
    case PowerCurve(p) => PowerScale(s, p, sc.minScore, sc.maxScore, m)
    case PercentileCurve(pmap) => PercentileScale(s, pmap, sc.minScore, sc.maxScore)
  }

  /** An unknown method falls back to linear scaling with the same bounds. */
  lemma UnknownMethodIsLinear(sc: Scaler, s: real, m: Maths)
    requires ScalerValid(sc)
    requires sc.methodName !in {"linear", "sigmoid", "power", "percentile"}
    ensures Scale(sc, s, m) == LinearScale(s, sc.minScore, sc.maxScore)
  {
  }

  /** The sigmoid and power scalers stay within [min, max] whenever their
      curve does, as `1 / (1 + exp(-z))` and `x ** p` on [0, 1] do. */
  lemma CurveScalersWithin(sc: Scaler, s: real, m: Maths)
    requires ScalerValid(sc)
    requires sc.methodName in {"sigmoid", "power"}
    requires sc.minScore <= sc.maxScore && PyNum.IsTenth(sc.minScore) && PyNum.IsTenth(sc.maxScore)
    requires forall z :: 0.0 <= m.logistic(z) <= 1.0
    requires forall x, p :: 0.0 <= x <= 1.0 ==> 0.0 <= m.pow(x, p) <= 1.0
    ensures sc.minScore <= Scale(sc, s, m) <= sc.maxScore
  {
    match CurveOf(sc)
    case SigmoidCurve(c, k) =>
      assert Scale(sc, s, m) == SigmoidScale(s, c, k, sc.minScore, sc.maxScore, m);
      SpreadWithin(m.logistic(k * (Clamp01(s) - c)), sc.minScore, sc.maxScore);
    case PowerCurve(p) =>
      SpreadWithin(m.pow(Clamp01(s), p), sc.minScore, sc.maxScore);
  }

  /** `ScoreScaler.scale_batch`. */
  function ScaleBatch(sc: Scaler, ss: seq<real>, m: Maths): (r: seq<real>)
    requires ScalerValid(sc)
    ensures |r| == |ss|
    ensures forall i :: 0 <= i < |ss| ==> r[i] == Scale(sc, ss[i], m)
  {
    if ss == [] then [] else [Scale(sc, ss[0], m)] + ScaleBatch(sc, ss[1..], m)
  }

  /** A linear scaler keeps a list in order. */
  lemma LinearBatchMonotone(sc: Scaler, ss: seq<real>, m: Maths)
    requires ScalerValid(sc) && CurveOf(sc).LinearCurve? && sc.minScore <= sc.maxScore
    requires forall i, j :: 0 <= i < j < |ss| ==> ss[i] <= ss[j]
    ensures forall i, j :: 0 <= i < j < |ss| ==> ScaleBatch(sc, ss, m)[i] <= ScaleBatch(sc, ss, m)[j]
  {
    forall i, j | 0 <= i < j < |ss|
      ensures ScaleBatch(sc, ss, m)[i] <= ScaleBatch(sc, ss, m)[j]
    {
      LinearMonotone(ss[i], ss[j], sc.minScore, sc.maxScore);
    }
  }

  /** The default linear scaler spreads 0, 0.5 and 1 to 50, 74.5 and 99. */
  lemma LinearBatchExample(m: Maths)
    ensures var sc := Scaler("linear", 50.0, 99.0, Kwargs(None, None, None, None));
      ScaleBatch(sc, [0.0, 0.5, 1.0], m) == [50.0, 74.5, 99.0]
  {
    var sc := Scaler("linear", 50.0, 99.0, Kwargs(None, None, None, None));
    var r := ScaleBatch(sc, [0.0, 0.5, 1.0], m);
    LinearEnds(0.0, 50.0, 99.0);
    LinearEnds(1.0, 50.0, 99.0);
    LinearHalf();
    assert r[0] == 50.0 && r[1] == 74.5 && r[2] == 99.0;
  }

  /** `default_scaler`: the power curve with exponent 0.7. */
  const DefaultScaler: Scaler := Scaler("power", 50.0, 99.0, Kwargs(None, None, Some(0.7), None))

  /** `scale_similarity_to_score`: the default scaler's power curve. */
  function ScaleSimilarityToScore(s: real, m: Maths): real {
    PowerScale(s, 0.7, 50.0, 99.0, m)
  }

  /** `scale_similarity_to_score` is `default_scaler.scale`, and its score lies
      in [50, 99] whenever the power curve stays in [0, 1]. */
  lemma DefaultScore(s: real, m: Maths)
    ensures ScalerValid(DefaultScaler) && ScaleSimilarityToScore(s, m) == Scale(DefaultScaler, s, m)
    ensures 0.0 <= m.pow(Clamp01(s), 0.7) <= 1.0 ==> 50.0 <= ScaleSimilarityToScore(s, m) <= 99.0
  {
    assert CurveOf(DefaultScaler) == PowerCurve(0.7);
    if 0.0 <= m.pow(Clamp01(s), 0.7) <= 1.0 {
      assert PyNum.IsTenth(50.0) && PyNum.IsTenth(99.0);
      SpreadWithin(m.pow(Clamp01(s), 0.7), 50.0, 99.0);
    }
  }
}
