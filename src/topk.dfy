/** Top-K selection and medal ranking (backend/app/domain/ranking/topk.py). */
module TopK {
  import opened Wrappers
  import opened Text
  import opened ResultModels
  import opened Similarity
  import Config
  import Loader
  import ScoreScale
  import Slices
  import PyNum

  /** `RANK_NAMES.get(position, Rank.BRONZE)`. */
  function RankAt(position: int): Rank {
    if position == 1 then Gold else if position == 2 then Silver else Bronze
  }

  /** `TopKConfig`. */
  datatype TopKConfig = TopKConfig(k: int, minSimilarity: real, diversityPenalty: real,
                                   expressionMatchBonus: real)

  const DefaultConfig := TopKConfig(3, 0.4, 0.0, 0.0)

  /** `expression or "neutral"`. */
  function ExpressionOrNeutral(expression: Option<string>): string {
    if expression.None? || expression.value == "" then "neutral" else expression.value
  }

  /** The `SimilarityResult` built for one kept pair. */
  function ResultFor(p: Pair, expression: string, catalog: map<string, Loader.CelebInfo>, m: ScoreScale.Maths)
    : SimilarityResult
  {
    SimilarityResult(p.id, Loader.NameOf(catalog, p.id), expression, p.sim,
                     ScoreScale.ScaleSimilarityToScore(p.sim, m))
  }

  /** What the `select_top_k` loop keeps from `ps`: it stops at the first pair
      below the threshold, and before that once `k` results are held. */
  function Kept(ps: seq<Pair>, k: int, minSim: real, expression: string,
                catalog: map<string, Loader.CelebInfo>, m: ScoreScale.Maths): (r: seq<SimilarityResult>)
    ensures |r| <= |ps| && (k >= 0 ==> |r| <= k) && (k <= 0 ==> r == [])
    decreases |ps|
  {
    if ps == [] || ps[0].sim < minSim || k <= 0 then []
    else [ResultFor(ps[0], expression, catalog, m)] + Kept(ps[1..], k - 1, minSim, expression, catalog, m)
  }

  /** The kept results are the leading pairs in order, each at or above the
      threshold, with its id, name, similarity and expression; the scan stopped either at the end, at a pair below the
      threshold, or with `k` results. A pair below the threshold hides every
      pair after it, however similar. */
  lemma {:induction false} KeptPrefix(ps: seq<Pair>, k: int, minSim: real, expression: string,
                                      catalog: map<string, Loader.CelebInfo>, m: ScoreScale.Maths)
    ensures var r := Kept(ps, k, minSim, expression, catalog, m);
      && (forall i :: 0 <= i < |r| ==> r[i] == ResultFor(ps[i], expression, catalog, m) && ps[i].sim >= minSim)
      && (forall i :: 0 <= i < |r| ==>
            r[i].celebId == ps[i].id && r[i].rawSimilarity == ps[i].sim
            && r[i].name == Loader.NameOf(catalog, ps[i].id) && r[i].expression == expression)
      && (|r| < |ps| ==> ps[|r|].sim < minSim || |r| >= k)
      && (forall j :: 0 <= j < |ps| && ps[j].sim < minSim ==> |r| <= j)
    decreases |ps|
  {
    if !(ps == [] || ps[0].sim < minSim || k <= 0) {
      KeptPrefix(ps[1..], k - 1, minSim, expression, catalog, m);
      var r := Kept(ps, k, minSim, expression, catalog, m);
      var rest := Kept(ps[1..], k - 1, minSim, expression, catalog, m);
      assert r == [ResultFor(ps[0], expression, catalog, m)] + rest;
      forall i | 0 < i < |r| ensures r[i] == rest[i - 1] && ps[i] == ps[1..][i - 1] {
      }
      if |r| < |ps| {
        assert ps[|r|] == ps[1..][|rest|];
      }
      forall j | 0 <= j < |ps| && ps[j].sim < minSim ensures |r| <= j {
        assert j > 0 && ps[1..][j - 1] == ps[j];
      }
    }
  }

  /** `select_top_k`, with the loader's table `catalog` for the names, the
      settings for the defaults of `k` and `min_similarity`, and the curve
      maths of the default scaler. */
  method SelectTopK(ps: seq<Pair>, k: Option<int>, minSimilarity: Option<real>, expression: Option<string>,
                    settings: Config.Settings, catalog: map<string, Loader.CelebInfo>, m: ScoreScale.Maths)
    returns (results: seq<SimilarityResult>)
    ensures results == Kept(ps, k.GetOr(settings.topK), minSimilarity.GetOr(settings.similarityThreshold),
                            ExpressionOrNeutral(expression), catalog, m)
    ensures |results| <= |ps| && (k.GetOr(settings.topK) >= 0 ==> |results| <= k.GetOr(settings.topK))
  {
    var kk := k.GetOr(settings.topK);
    var minSim := minSimilarity.GetOr(settings.similarityThreshold);
    var expr := ExpressionOrNeutral(expression);
    ghost var all := Kept(ps, kk, minSim, expr, catalog, m);
    results := [];
    var i := 0;
    while i < |ps|
      invariant 0 <= i <= |ps| && |results| == i
      invariant results + Kept(ps[i..], kk - i, minSim, expr, catalog, m) == all
    {
      var p := ps[i];
      KeptStep(ps, i, kk - i, minSim, expr, catalog, m);
      if p.sim < minSim {
        assert results + [] == results;
        break;
      }
      if |results| >= kk {
        assert results + [] == results;
        break;
      }
      var grown := results + [ResultFor(p, expr, catalog, m)];
      KeptGrow(ps, i, kk, minSim, expr, catalog, m, results, grown, all);
      results := grown;
      i := i + 1;
    }
    if i == |ps| {
      assert Kept(ps[i..], kk - i, minSim, expr, catalog, m) == [];
      assert results + [] == results;
    }
  }

  /** The invariant of the `select_top_k` loop after one more result. */
  lemma KeptGrow(ps: seq<Pair>, i: nat, kk: int, minSim: real, expression: string,
                 catalog: map<string, Loader.CelebInfo>, m: ScoreScale.Maths,
                 results: seq<SimilarityResult>, grown: seq<SimilarityResult>, all: seq<SimilarityResult>)
    requires i < |ps| && !(ps[i].sim < minSim || kk - i <= 0)
    requires results + Kept(ps[i..], kk - i, minSim, expression, catalog, m) == all
    requires grown == results + [ResultFor(ps[i], expression, catalog, m)]
    ensures grown + Kept(ps[i + 1..], kk - (i + 1), minSim, expression, catalog, m) == all
  {
    KeptStep(ps, i, kk - i, minSim, expression, catalog, m);
    var x := ResultFor(ps[i], expression, catalog, m);
    var rest := Kept(ps[i + 1..], kk - i - 1, minSim, expression, catalog, m);
    assert results + [x] + rest == results + ([x] + rest);
  }

  /** One step of the `select_top_k` loop from position `i`. */
  lemma KeptStep(ps: seq<Pair>, i: nat, k: int, minSim: real, expression: string,
                 catalog: map<string, Loader.CelebInfo>, m: ScoreScale.Maths)
    requires i < |ps|
    ensures ps[i].sim < minSim || k <= 0 ==> Kept(ps[i..], k, minSim, expression, catalog, m) == []
    ensures !(ps[i].sim < minSim || k <= 0) ==>
      Kept(ps[i..], k, minSim, expression, catalog, m)
      == [ResultFor(ps[i], expression, catalog, m)] + Kept(ps[i + 1..], k - 1, minSim, expression, catalog, m)
  {
    assert ps[i..][0] == ps[i] && ps[i..][1..] == ps[i + 1..];
  }

  /** The image of a match: `/api/celeb-image/<id without "_original">_01.jpg`. */
  function ImageUrl(celebId: string): string {
    "/api/celeb-image/" + Replace(celebId, "_original", "") + "_01.jpg"
  }

  /** An id without the `_original` marker appears in its URL unchanged. */
  lemma ImageUrlPlain(celebId: string)
    requires !Contains(celebId, "_original")
    ensures ImageUrl(celebId) == "/api/celeb-image/" + celebId + "_01.jpg"
  {
    ReplaceAbsent(celebId, "_original", "");
  }

  /** An id `x + "_original"` loses its marker: the URL names `x`. */
  lemma ImageUrlOriginal(x: string)
    requires !Contains(x, "_original")
    ensures ImageUrl(x + "_original") == "/api/celeb-image/" + x + "_01.jpg"
  {
    var pat := "_original";
    var s := x + pat;
    forall j | 0 <= j < |x|
      ensures !OccursAt(s, pat, j)
    {
      if j + |pat| <= |x| {
        assert s[j..j + |pat|] == x[j..j + |pat|];
        assert !OccursAt(x, pat, j);
      } else {
        var k := |x| - j;
        assert 0 < k < |pat| && pat[k] != '_';
        assert s[|x|] == '_';
      }
    }
    assert s[|x|..] == pat && s[..|x|] == x;
    assert OccursAt(s, pat, |x|);
    assert IndexOf(s, pat) == Some(|x|);
    assert s[|x| + |pat|..] == [];
    assert IndexOf([], pat) == None;
    assert SplitOn(s, pat) == [x, ""];
    JoinCons(x, [""], "");
    assert [x] + [""] == [x, ""];
    assert JoinWith([""], "") == "";
    assert x + "" + "" == x;
  }

  /** The `RankingResult` for the result at `position` (from 0). */
  function RankingFor(r: SimilarityResult, position: nat, expression: string): RankingResult {
    RankingResult(r.celebId, r.name, expression, r.scaledScore, RankAt(position + 1), Some(ImageUrl(r.celebId)))
  }

  function Rankings(srs: seq<SimilarityResult>, expression: string): (r: seq<RankingResult>)
    ensures |r| == if |srs| < 3 then |srs| else 3
    ensures forall i :: 0 <= i < |r| ==> r[i] == RankingFor(srs[i], i, expression)
  {
    var top := Slices.Prefix(srs, 3);
    seq(|top|, i requires 0 <= i < |top| => RankingFor(top[i], i, expression))
  }

  /** `create_ranking_results`: at most three rankings, by position gold,
      silver and bronze, each carrying its result's id, name and scaled score
      and the expression passed in. */
  method CreateRankingResults(srs: seq<SimilarityResult>, expression: string) returns (rankings: seq<RankingResult>)
    ensures rankings == Rankings(srs, expression)
    ensures |rankings| <= 3 && |rankings| == if |srs| < 3 then |srs| else 3
    ensures forall i :: 0 <= i < |rankings| ==>
      rankings[i].rank == [Gold, Silver, Bronze][i] && rankings[i].score == srs[i].scaledScore
      && rankings[i].celebId == srs[i].celebId && rankings[i].name == srs[i].name
      && rankings[i].expression == expression && rankings[i].imageUrl == Some(ImageUrl(srs[i].celebId))
  {
    var top := Slices.Prefix(srs, 3);
    rankings := [];
    var i := 0;
    while i < |top|
      invariant 0 <= i <= |top| && |rankings| == i
      invariant forall j :: 0 <= j < i ==> rankings[j] == RankingFor(top[j], j, expression)
    {
      rankings := rankings + [RankingFor(top[i], i, expression)];
      i := i + 1;
    }
  }

  /** The number of times `id` occurs in `ps`. */
  function Occurrences(ps: seq<Pair>, id: string): nat {
    if ps == [] then 0
    else Occurrences(ps[..|ps| - 1], id) + (if ps[|ps| - 1].id == id then 1 else 0)
  }

  /** The similarity `apply_diversity` gives an entry seen `count` times before. */
  function Penalised(sim: real, count: nat, penalty: real, limit: int): real {
    if count >= limit then sim - penalty * (count - limit + 1) as real else sim
  }

  /** The adjusted list before sorting, built entry by entry as the
      `apply_diversity` loop builds it. */
  function Adjusted(ps: seq<Pair>, penalty: real, limit: int): (r: seq<Pair>)
    ensures |r| == |ps|
  {
    if ps == [] then []
    else
      var init := ps[..|ps| - 1];
      var last := ps[|ps| - 1];
      Adjusted(init, penalty, limit) + [Pair(last.id, Penalised(last.sim, Occurrences(init, last.id), penalty, limit))]
  }

  /** Each adjusted entry keeps its id, and its similarity is penalised by the
      number of earlier entries with that id. */
  lemma {:induction false} AdjustedEntries(ps: seq<Pair>, penalty: real, limit: int)
    ensures forall i :: 0 <= i < |ps| ==>
      Adjusted(ps, penalty, limit)[i] == Pair(ps[i].id, Penalised(ps[i].sim, Occurrences(ps[..i], ps[i].id), penalty, limit))
  {
    if ps != [] {
      var init := ps[..|ps| - 1];
      AdjustedEntries(init, penalty, limit);
      forall i | 0 <= i < |init| ensures init[..i] == ps[..i] {
      }
    }
  }

  /** `celeb_counts.get(id, 0)`. */
  function CountOf(counts: map<string, nat>, id: string): nat {
    if id in counts then counts[id] else 0
  }

  /** `apply_diversity`: an entry whose id was already seen at least `limit`
      times loses `penalty` for each sighting from the `limit`-th on; the
      adjusted list is then sorted stably, highest first. */
  method ApplyDiversity(ps: seq<Pair>, penalty: real, limit: int) returns (r: seq<Pair>)
    ensures r == SortDesc(Adjusted(ps, penalty, limit))
    ensures |r| == |ps| && multiset(Ids(r)) == multiset(Ids(ps))
    ensures forall i, j :: 0 <= i < j < |r| ==> r[i].sim >= r[j].sim
  {
    var counts: map<string, nat> := map[];
    var adjusted: seq<Pair> := [];
    var i := 0;
    while i < |ps|
      invariant 0 <= i <= |ps|
      invariant adjusted == Adjusted(ps[..i], penalty, limit)
      invariant CountsAre(counts, ps[..i])
    {
      var p := ps[i];
      var count := CountOf(counts, p.id);
      var sim := if count >= limit then p.sim - penalty * (count - limit + 1) as real else p.sim;
      assert sim == Penalised(p.sim, count, penalty, limit);
      var grown := adjusted + [Pair(p.id, sim)];
      var counted := counts[p.id := count + 1];
      DiversityStep(ps, i, penalty, limit, counts, adjusted, grown, counted);
      adjusted := grown;
      counts := counted;
      i := i + 1;
    }
    assert ps[..|ps|] == ps;
    r := SortDesc(adjusted);
    DiversityIds(ps, penalty, limit);
  }

  /** `counts` holds, for every id, how often it occurs in `ps`. */
  ghost predicate CountsAre(counts: map<string, nat>, ps: seq<Pair>) {
    forall id :: CountOf(counts, id) == Occurrences(ps, id)
  }

  /** One pass of the `apply_diversity` loop: the entry at `i` gets its
      penalised similarity and its id's count goes up by one. */
  lemma DiversityStep(ps: seq<Pair>, i: nat, penalty: real, limit: int, counts: map<string, nat>,
                      adjusted: seq<Pair>, grown: seq<Pair>, counted: map<string, nat>)
    requires i < |ps| && adjusted == Adjusted(ps[..i], penalty, limit) && CountsAre(counts, ps[..i])
    requires grown == adjusted + [Pair(ps[i].id, Penalised(ps[i].sim, CountOf(counts, ps[i].id), penalty, limit))]
    requires counted == counts[ps[i].id := CountOf(counts, ps[i].id) + 1]
    ensures grown == Adjusted(ps[..i + 1], penalty, limit)
    ensures CountsAre(counted, ps[..i + 1])
  {
    var q := ps[..i + 1];
    assert q[..i] == ps[..i];
    assert q[|q| - 1] == ps[i];
    forall id ensures CountOf(counted, id) == Occurrences(q, id) {
      assert Occurrences(q, id) == Occurrences(ps[..i], id) + (if ps[i].id == id then 1 else 0);
    }
  }

  lemma DiversityIds(ps: seq<Pair>, penalty: real, limit: int)
    ensures multiset(Ids(SortDesc(Adjusted(ps, penalty, limit)))) == multiset(Ids(ps))
  {
    var a := Adjusted(ps, penalty, limit);
    assert Ids(a) == Ids(ps) by {
      AdjustedEntries(ps, penalty, limit);
      forall i | 0 <= i < |ps| ensures Ids(a)[i] == Ids(ps)[i] {
        assert a[i].id == ps[i].id;
      }
    }
    IdsPermutation(SortDesc(a), a);
  }

  /** An entry whose id was seen fewer than `limit` times before keeps its
      similarity; a later sighting loses one more `penalty` than the one
      before it. */
  lemma PenaltySteps(sim: real, count: nat, penalty: real, limit: int)
    ensures count < limit ==> Penalised(sim, count, penalty, limit) == sim
    ensures count >= limit ==>
      Penalised(sim, count + 1, penalty, limit) == Penalised(sim, count, penalty, limit) - penalty
  {
  }

  /** The first entry of an id is never penalised when the limit is positive,
      and the `limit + 1`-th loses one `penalty`. */
  lemma DiversityFirstFree(ps: seq<Pair>, penalty: real, limit: int, i: nat)
    requires limit >= 1 && i < |ps|
    requires forall j :: 0 <= j < i ==> ps[j].id != ps[i].id
    ensures Adjusted(ps, penalty, limit)[i] == ps[i]
  {
    AdjustedEntries(ps, penalty, limit);
    OccurrencesAbsent(ps[..i], ps[i].id);
  }

  lemma {:induction false} OccurrencesAbsent(ps: seq<Pair>, id: string)
    requires forall j :: 0 <= j < |ps| ==> ps[j].id != id
    ensures Occurrences(ps, id) == 0
  {
    if ps != [] { OccurrencesAbsent(ps[..|ps| - 1], id); }
  }

  /** The test case: with penalty 0.2 and limit 1, the second `A` drops from
      0.85 to 0.65, below `B`, and `A` stays first. */
  lemma DiversityExample()
    ensures SortDesc(Adjusted([Pair("A", 0.9), Pair("A", 0.85), Pair("B", 0.8)], 0.2, 1))
      == [Pair("A", 0.9), Pair("B", 0.8), Pair("A", 0.65)]
  {
    var a := [Pair("A", 0.9), Pair("A", 0.65), Pair("B", 0.8)];
    DiversityPenalties();
    SortedUnique(SortDesc(a), [Pair("A", 0.9), Pair("B", 0.8), Pair("A", 0.65)], a);
  }

  /** The penalties of the test case: only the second `A` loses 0.2. */
  lemma DiversityPenalties()
    ensures Adjusted([Pair("A", 0.9), Pair("A", 0.85), Pair("B", 0.8)], 0.2, 1)
      == [Pair("A", 0.9), Pair("A", 0.65), Pair("B", 0.8)]
  {
    var ps := [Pair("A", 0.9), Pair("A", 0.85), Pair("B", 0.8)];
    AdjustedEntries(ps, 0.2, 1);
    assert Occurrences(ps[..0], "A") == 0;
    assert Occurrences(ps[..1], "A") == 1 by { assert ps[..1][..0] == []; }
    OccurrencesAbsent(ps[..2], "B");
  }

  /** A list sorted highest first with distinct similarities is the only
      ordering of its elements. */
  lemma SortedUnique(r: seq<Pair>, e: seq<Pair>, a: seq<Pair>)
    requires |a| == 3 && |e| == 3 && |r| == 3 && multiset(r) == multiset(a) && multiset(e) == multiset(a)
    requires forall i, j :: 0 <= i < j < |r| ==> r[i].sim >= r[j].sim
    requires e[0].sim > e[1].sim > e[2].sim
    ensures r == e
  {
    assert r[0] in multiset(e) && r[1] in multiset(e) && r[2] in multiset(e);
    assert e[0] in multiset(r) && e[1] in multiset(r) && e[2] in multiset(r);
  }

  /** `TopKSelector.select`. */
  method Select(config: TopKConfig, ps: seq<Pair>, expression: string, settings: Config.Settings,
                catalog: map<string, Loader.CelebInfo>, m: ScoreScale.Maths)
    returns (rankings: seq<RankingResult>)
    ensures var input := if config.diversityPenalty > 0.0 then SortDesc(Adjusted(ps, config.diversityPenalty, 1)) else ps;
      rankings == Rankings(Kept(input, config.k, config.minSimilarity,
                                ExpressionOrNeutral(Some(expression)), catalog, m), expression)
  {
    var input := ps;
    if config.diversityPenalty > 0.0 {
      input := ApplyDiversity(ps, config.diversityPenalty, 1);
    }
    var top := SelectTopK(input, Some(config.k), Some(config.minSimilarity), Some(expression), settings, catalog, m);
    rankings := CreateRankingResults(top, expression);
  }

  /** With the default configuration no diversity is applied: the rankings are
      the first three pairs at or above 0.4, medalled in order. */
  lemma DefaultSelect(ps: seq<Pair>, expression: string, catalog: map<string, Loader.CelebInfo>, m: ScoreScale.Maths)
    ensures var r := Rankings(Kept(ps, 3, 0.4, ExpressionOrNeutral(Some(expression)), catalog, m), expression);
      |r| <= 3 && |r| <= |ps|
      && forall i :: 0 <= i < |r| ==> r[i].celebId == ps[i].id && ps[i].sim >= 0.4 && r[i].rank == RankAt(i + 1)
  {
    KeptPrefix(ps, 3, 0.4, ExpressionOrNeutral(Some(expression)), catalog, m);
  }

  /** `TopKSelector.get_rank_name`. */
  function GetRankName(position: int): string {
    if position == 1 then "금"
    else if position == 2 then "은"
    else if position == 3 then "동"
    else IntToString(position) + "위"
  }

  /** Positions other than 1–3 are written as the number followed by 위, and
      the number can be read back. */
  lemma RankNameOther(position: int)
    requires position !in {1, 2, 3}
    ensures var r := GetRankName(position);
      |r| >= 2 && r[|r| - 1] == '위' && PyNum.IntOfString(r[..|r| - 1]) == Some(position)
  {
    var r := GetRankName(position);
    assert r[..|r| - 1] == IntToString(position);
    PyNum.IntOfStringRoundTrip(position);
  }

  /** `get_top_k_matches`: the default selector. */
  method GetTopKMatches(ps: seq<Pair>, expression: string, settings: Config.Settings,
                        catalog: map<string, Loader.CelebInfo>, m: ScoreScale.Maths)
    returns (rankings: seq<RankingResult>)
    ensures rankings == Rankings(Kept(ps, 3, 0.4, ExpressionOrNeutral(Some(expression)), catalog, m), expression)
  {
    rankings := Select(DefaultConfig, ps, expression, settings, catalog, m);
  }
}
