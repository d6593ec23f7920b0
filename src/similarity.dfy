/** Similarity ranking of catalog embeddings (backend/app/domain/ranking/similarity.py). */
module Similarity {
  import opened Wrappers
  import opened Arrays
  import Sorting
  import Slices

  /** One `(celeb_id, similarity)` tuple. */
  datatype Pair = Pair(id: string, sim: real)

  /** The `ValueError`s (and the one `IndexError`) `compute_similarities` raises. */
  datatype SimError =
    | NoCandidates            // "No candidate embeddings"
    | NotTwoDimensional       // "Candidate embeddings must be 2D"
    | NoUserEmbedding         // "User embedding is None"
    | NoUserDims              // `shape[-1]` of a 0-d user embedding
    | DimMismatch             // "Embedding dim mismatch: ..."
    | EmptyDistances          // `np.max` of no distances
    | UnknownMethod(name: string)
    | TooFewScores            // `similarities[i]` past the computed scores

  /** `batch_cosine_similarity` and `batch_euclidean_distance`, supplied. */
  datatype Kernels = Kernels(cosine: (NdArray, NdArray) -> seq<real>,
                             euclidean: (NdArray, NdArray) -> seq<real>)

  /** The input checks, in the order `compute_similarities` makes them. */
  function Validate(user: Option<NdArray>, cands: Option<NdArray>, ids: seq<string>): (r: Option<SimError>)
    ensures r.None? <==> (cands.Some? && |ids| > 0 && Ndim(cands.value) == 2 && user.Some?
                          && |user.value.shape| > 0
                          && user.value.shape[|user.value.shape| - 1] == cands.value.shape[1])
  {
    if cands.None? || |ids| == 0 then Some(NoCandidates)
    else if Ndim(cands.value) != 2 then Some(NotTwoDimensional)
    else if user.None? then Some(NoUserEmbedding)
    else if |user.value.shape| == 0 then Some(NoUserDims)
    else if user.value.shape[|user.value.shape| - 1] != cands.value.shape[1] then Some(DimMismatch)
    else None
  }

  /** The largest of a non-empty list. */
  function Max(d: seq<real>): (m: real)
    requires |d| > 0
    ensures m in d
    ensures forall i :: 0 <= i < |d| ==> d[i] <= m
  {
    if |d| == 1 then d[0]
    else
      var t := Max(d[1..]);
      assert forall i :: 1 <= i < |d| ==> d[i] == d[1..][i - 1];
      if d[0] >= t then d[0] else t
  }

  /** Distances turned into similarities: `1 - d / max(d)`, or all ones when
      the largest distance is not positive. */
  function FromDistances(d: seq<real>): (r: seq<real>)
    requires |d| > 0
    ensures |r| == |d|
  {
    var m := Max(d);
    if m > 0.0 then seq(|d|, i requires 0 <= i < |d| => 1.0 - d[i] / m)
    else seq(|d|, i => 1.0)
  }

  /** Non-negative distances give similarities in [0, 1], the farthest
      candidate scoring 0 and, when every distance is 0, every candidate 1. */
  lemma FromDistancesRange(d: seq<real>)
    requires |d| > 0 && forall i :: 0 <= i < |d| ==> d[i] >= 0.0
    ensures forall i :: 0 <= i < |d| ==> 0.0 <= FromDistances(d)[i] <= 1.0
    ensures forall i :: 0 <= i < |d| && d[i] == Max(d) && Max(d) > 0.0 ==> FromDistances(d)[i] == 0.0
    ensures Max(d) == 0.0 ==> forall i :: 0 <= i < |d| ==> FromDistances(d)[i] == 1.0
  {
    forall i | 0 <= i < |d|
      ensures 0.0 <= FromDistances(d)[i] <= 1.0
      ensures d[i] == Max(d) && Max(d) > 0.0 ==> FromDistances(d)[i] == 0.0
    {
      FromDistancesAt(d, i);
    }
  }

  lemma FromDistancesAt(d: seq<real>, i: nat)
    requires i < |d| && d[i] >= 0.0
    ensures 0.0 <= FromDistances(d)[i] <= 1.0
    ensures d[i] == Max(d) && Max(d) > 0.0 ==> FromDistances(d)[i] == 0.0
  {
    var m := Max(d);
    if m > 0.0 {
      assert FromDistances(d)[i] == 1.0 - d[i] / m;
      DivAtMostOne(d[i], m);
    }
  }

  lemma DivAtMostOne(x: real, m: real)
    requires 0.0 <= x <= m && m > 0.0
    ensures 0.0 <= x / m <= 1.0
    ensures x == m ==> x / m == 1.0
  {
  }

  /** The scores of the chosen method, or its error. */
  function Scores(user: NdArray, cands: NdArray, methodName: string, k: Kernels): (r: Result<seq<real>, SimError>)
    ensures methodName != "cosine" && methodName != "euclidean" ==> r == Err(UnknownMethod(methodName))
    ensures methodName == "cosine" ==> r == Ok(k.cosine(user, cands))
    ensures methodName == "euclidean" && k.euclidean(user, cands) == [] ==> r == Err(EmptyDistances)
  {
    if methodName == "cosine" then Ok(k.cosine(user, cands))
    else if methodName == "euclidean" then
      var d := k.euclidean(user, cands);
      if d == [] then Err(EmptyDistances) else Ok(FromDistances(d))
    else Err(UnknownMethod(methodName))
  }

  /** The list before sorting: one pair per id, in id order. */
  function Pairs(ids: seq<string>, sims: seq<real>): (r: seq<Pair>)
    requires |ids| <= |sims|
    ensures |r| == |ids|
    ensures forall i :: 0 <= i < |ids| ==> r[i] == Pair(ids[i], sims[i])
  {
    seq(|ids|, i requires 0 <= i < |ids| => Pair(ids[i], sims[i]))
  }

  /** The sort key order of `sort(key=lambda x: x[1], reverse=True)`: a pair
      goes before another at most as similar. */
  function HigherFirst(a: Pair, b: Pair): bool {
    a.sim >= b.sim
  }

  lemma HigherFirstTotal()
    ensures Sorting.TotalPreorder(HigherFirst)
  {
  }

  /** The stable descending sort by similarity. */
  function SortDesc(ps: seq<Pair>): (r: seq<Pair>)
    ensures |r| == |ps| && multiset(r) == multiset(ps)
    ensures forall i, j :: 0 <= i < j < |r| ==> r[i].sim >= r[j].sim
    ensures forall y :: Sorting.EqualTo(r, y, HigherFirst) == Sorting.EqualTo(ps, y, HigherFirst)
  {
    HigherFirstTotal();
    Sorting.SortBySorted(ps, HigherFirst);
    Sorting.SortByPermutation(ps, HigherFirst);
    forall y ensures Sorting.EqualTo(Sorting.SortBy(ps, HigherFirst), y, HigherFirst) == Sorting.EqualTo(ps, y, HigherFirst) {
      Sorting.SortByStable(ps, y, HigherFirst);
    }
    assert forall i, j :: 0 <= i < j < |ps| ==>
      HigherFirst(Sorting.SortBy(ps, HigherFirst)[i], Sorting.SortBy(ps, HigherFirst)[j]);
    Sorting.SortBy(ps, HigherFirst)
  }

  /** What `compute_similarities` returns, as a function of its inputs. */
  function Ranked(user: Option<NdArray>, cands: Option<NdArray>, ids: seq<string>, methodName: string, k: Kernels)
    : Result<seq<Pair>, SimError>
  {
    match Validate(user, cands, ids)
    case Some(e) => Err(e)
    case None =>
      match Scores(user.value, cands.value, methodName, k)
      case Err(e) => Err(e)
      case Ok(sims) => if |sims| < |ids| then Err(TooFewScores) else Ok(SortDesc(Pairs(ids, sims)))
  }

  /** `compute_similarities`: checks the inputs, builds one pair per id and
      sorts them by similarity, highest first, ties in input order. */
  method ComputeSimilarities(user: Option<NdArray>, cands: Option<NdArray>, ids: seq<string>,
                             methodName: string, k: Kernels)
    returns (r: Result<seq<Pair>, SimError>)
    ensures r == Ranked(user, cands, ids, methodName, k)
    ensures Validate(user, cands, ids).Some? ==> r == Err(Validate(user, cands, ids).value)
    ensures r.Ok? ==> |r.value| == |ids|
    ensures r.Ok? ==> forall i, j :: 0 <= i < j < |r.value| ==> r.value[i].sim >= r.value[j].sim
    ensures r.Ok? ==> forall y :: Sorting.EqualTo(r.value, y, HigherFirst)
                            == Sorting.EqualTo(Pairs(ids, Scores(user.value, cands.value, methodName, k).value), y, HigherFirst)
    ensures r.Ok? ==> multiset(r.value) == multiset(Pairs(ids, Scores(user.value, cands.value, methodName, k).value))
  {
    var bad := Validate(user, cands, ids);
    if bad.Some? {
      return Err(bad.value);
    }
    var scored := Scores(user.value, cands.value, methodName, k);
    if scored.Err? {
      return Err(scored.error);
    }
    var sims := scored.value;
    if |sims| < |ids| {
      return Err(TooFewScores);
    }
    var results: seq<Pair> := [];
    var i := 0;
    while i < |ids|
      invariant 0 <= i <= |ids|
      invariant results == Pairs(ids[..i], sims)
    {
      results := results + [Pair(ids[i], sims[i])];
      i := i + 1;
    }
    assert ids[..|ids|] == ids;
    results := SortDesc(results);
    return Ok(results);
  }

  /** The ids of a list of pairs, in order. */
  function Ids(ps: seq<Pair>): (r: seq<string>)
    ensures |r| == |ps| && forall i :: 0 <= i < |ps| ==> r[i] == ps[i].id
  {
    if ps == [] then [] else [ps[0].id] + Ids(ps[1..])
  }

  lemma {:induction false} IdsConcat(a: seq<Pair>, b: seq<Pair>)
    ensures Ids(a + b) == Ids(a) + Ids(b)
  {
  }

  /** The result holds each id exactly as often as the input does. */
  lemma RankedIds(ids: seq<string>, sims: seq<real>)
    requires |ids| <= |sims|
    ensures multiset(Ids(SortDesc(Pairs(ids, sims)))) == multiset(ids)
  {
    var ps := Pairs(ids, sims);
    assert Ids(ps) == ids;
    IdsPermutation(SortDesc(ps), ps);
  }

  lemma {:induction false} IdsPermutation(a: seq<Pair>, b: seq<Pair>)
    requires multiset(a) == multiset(b)
    ensures multiset(Ids(a)) == multiset(Ids(b))
    decreases |a|
  {
    if a != [] {
      var j := IndexOfHead(a, b);
      var rest := b[..j] + b[j + 1..];
      IdsPermutation(a[1..], rest);
      IdsRemoveAt(b, j);
      IdsHead(a);
    }
  }

  /** Some position of `b` holds the first pair of `a`, and the rest of `b` is a permutation of the rest of `a`. */
  lemma IndexOfHead(a: seq<Pair>, b: seq<Pair>) returns (j: nat)
    requires a != [] && multiset(a) == multiset(b)
    ensures j < |b| && b[j] == a[0]
    ensures multiset(a[1..]) == multiset(b[..j] + b[j + 1..])
  {
    assert a[0] in multiset(b);
    j :| 0 <= j < |b| && b[j] == a[0];
    RemoveAt(b, j);
    assert a == [a[0]] + a[1..];
  }

  /** The ids of a non-empty sequence are its first id and the ids of the rest. */
  lemma IdsHead(a: seq<Pair>)
    requires a != []
    ensures multiset(Ids(a)) == multiset(Ids(a[1..])) + multiset{a[0].id}
  {
    assert Ids(a) == [a[0].id] + Ids(a[1..]);
  }

  /** Taking out the element at `j` takes one copy of it out of the multiset. */
  lemma RemoveAt<T>(b: seq<T>, j: nat)
    requires j < |b|
    ensures multiset(b[..j] + b[j + 1..]) == multiset(b) - multiset{b[j]}
  {
    assert b == b[..j] + [b[j]] + b[j + 1..];
  }

  /** A sequence that is `xs` with its `j`-th element skipped holds one copy of it fewer. */
  lemma SkipOne<T>(xs: seq<T>, ys: seq<T>, j: nat)
    requires j < |xs| && |ys| == |xs| - 1
    requires forall i :: 0 <= i < j ==> ys[i] == xs[i]
    requires forall i :: j <= i < |ys| ==> ys[i] == xs[i + 1]
    ensures multiset(xs) == multiset(ys) + multiset{xs[j]}
  {
    assert ys == xs[..j] + xs[j + 1..];
    RemoveAt(xs, j);
  }

  /** The ids of `b` are those of `b` without its `j`-th pair, plus that pair's id. */
  lemma IdsRemoveAt(b: seq<Pair>, j: nat)
    requires j < |b|
    ensures multiset(Ids(b)) == multiset(Ids(b[..j] + b[j + 1..])) + multiset{b[j].id}
  {
    var rest := b[..j] + b[j + 1..];
    assert forall i :: 0 <= i < j ==> rest[i] == b[i];
    assert forall i :: j <= i < |rest| ==> rest[i] == b[i + 1];
    SkipOne(Ids(b), Ids(rest), j);
  }

  /** `filter_by_threshold`. */
  function FilterByThreshold(ps: seq<Pair>, threshold: real): (r: seq<Pair>)
    ensures |r| <= |ps|
  {
    if ps == [] then []
    else (if ps[0].sim >= threshold then [ps[0]] else []) + FilterByThreshold(ps[1..], threshold)
  }

  /** Exactly the pairs at or above the threshold are kept, each as often as
      it occurs. */
  lemma {:induction false} FilterKeeps(ps: seq<Pair>, threshold: real, p: Pair)
    ensures multiset(FilterByThreshold(ps, threshold))[p] == if p.sim >= threshold then multiset(ps)[p] else 0
  {
    if ps != [] {
      FilterKeeps(ps[1..], threshold, p);
      assert ps == [ps[0]] + ps[1..];
    }
  }

  /** On a list sorted highest first the kept pairs are a prefix. */
  lemma {:induction false} FilterSortedPrefix(ps: seq<Pair>, threshold: real)
    requires forall i, j :: 0 <= i < j < |ps| ==> ps[i].sim >= ps[j].sim
    ensures var r := FilterByThreshold(ps, threshold);
      r == ps[..|r|] && (|r| < |ps| ==> ps[|r|].sim < threshold)
  {
    if ps != [] {
      FilterSortedPrefix(ps[1..], threshold);
      if ps[0].sim < threshold {
        FilterNone(ps[1..], threshold);
      }
    }
  }

  lemma {:induction false} FilterNone(ps: seq<Pair>, threshold: real)
    requires forall i :: 0 <= i < |ps| ==> ps[i].sim < threshold
    ensures FilterByThreshold(ps, threshold) == []
  {
    if ps != [] { FilterNone(ps[1..], threshold); }
  }

  /** `SimilarityCalculator.get_top_k`: the ranked list, optionally filtered,
      cut to its first `k` entries as `results[:k]` does. */
  method GetTopK(methodName: string, query: Option<NdArray>, cands: Option<NdArray>, ids: seq<string>,
                 topK: int, threshold: Option<real>, kern: Kernels)
    returns (r: Result<seq<Pair>, SimError>)
    ensures r.Err? <==> Ranked(query, cands, ids, methodName, kern).Err?
    ensures r.Ok? ==> r.value == Slices.Prefix(TopKOf(Ranked(query, cands, ids, methodName, kern).value, threshold), topK)
  {
    var results := ComputeSimilarities(query, cands, ids, methodName, kern);
    if results.Err? {
      return results;
    }
    var kept := results.value;
    if threshold.Some? {
      kept := FilterByThreshold(kept, threshold.value);
    }
    return Ok(Slices.Prefix(kept, topK));
  }

  function TopKOf(ranked: seq<Pair>, threshold: Option<real>): seq<Pair> {
    if threshold.Some? then FilterByThreshold(ranked, threshold.value) else ranked
  }

  /** With an optional threshold and `k >= 0`, `get_top_k` returns the first
      `k` ranked pairs that reach the threshold. */
  lemma TopKPrefix(ranked: seq<Pair>, threshold: Option<real>, topK: nat)
    requires forall i, j :: 0 <= i < j < |ranked| ==> ranked[i].sim >= ranked[j].sim
    ensures var r := Slices.Prefix(TopKOf(ranked, threshold), topK);
      |r| <= topK && r == ranked[..|r|]
      && (threshold.Some? ==> forall p <- r :: p.sim >= threshold.value)
  {
    if threshold.Some? {
      FilterSortedPrefix(ranked, threshold.value);
      var f := FilterByThreshold(ranked, threshold.value);
      forall p <- f ensures p.sim >= threshold.value {
        FilterKeeps(ranked, threshold.value, p);
      }
    }
  }
}
