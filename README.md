# The Beauty Inside — a verified Dafny model of the analysis core

The Beauty Inside matches a user's face photo against a catalog of reference
celebrity faces. The answer has two parts: the three closest look-alikes, and
the user's facial expression (neutral, smile, sad or surprise). A quality gate
and a face-count check stand in front of the match. This project models the
logic between the neural models and the WebSocket transport, and proves
properties of that model in Dafny:

- the **ranking engine**:
  - input validation, pairing and the stable descending sort of `compute_similarities`;
  - threshold filtering and `get_top_k`;
  - the linear and percentile display-score scalers;
  - the Top-K selector, including its threshold-before-count break;
  - the diversity penalty, the gold/silver/bronze ranks and image URLs;
- the **expression scorer**:
  - the weighted blendshape average;
  - the first-wins argmax over smile, sad and surprise;
  - the per-expression thresholds and the confidence formula;
  - the low-confidence fallback to neutral;
- the **quality gate**:
  - face count;
  - the five flags and `is_valid`;
  - strict mode's fixed error order;
  - the `issues` list;
- the **catalog and expression index**:
  - the `CelebDataLoader` and `ExpressionIndex` classes with their load-once flags;
  - the reverse index;
  - the fail-open expression filter over embedding rows;
  - the data-file path layout;
- the **analysis pipeline**:
  - a class whose `Analyze` method runs the stages over abstract collaborators: decoder, detector, cropper, embedder and catalog;
  - its progress events 10/25/40/60/80/100 and the swallowed callback failures;
  - the step timer;
  - the rule that wraps every non-domain error as `INTERNAL_ERROR`;
- the **boundary rules**:
  - data-URL header parsing and the size and dimension limits;
  - resize arithmetic and crop windows;
  - the id patterns;
  - client-message dispatch and field bounds;
  - the score → `similarity_100` → `similarity` conversion;
  - error codes and their default messages;
  - CORS list parsing;
  - debug-flag parsing and truncation;
- the **offline catalog tools**:
  - the Firebase/local merge of `manage_embeddings.py` in sync and merge modes;
  - its sorted CSV and embedding-matrix output;
  - the checks of `verify_celeb_artifacts.py`, in their fixed order.

The modules live in `src/`, one per source file, plus small helper modules:

| helper | what it models |
|---|---|
| `Wrappers` | Option and Result |
| `Text` | strip, split, lower, replace |
| `PyNum` | Python `int()`, `round`, truncation and decimal formatting |
| `PyDict` | an insertion-ordered dict |
| `Json` | JSON values |
| `Sorting` | Python's stable `list.sort` |
| `Slices` | Python slicing |

Where the source changes state, the model does too:

- **Classes whose methods change their fields, with frames:**
  - `Loader.CelebDataLoader`, `CelebIndex.ExpressionIndex` and `Pipeline.AnalyzePipeline`;
  - `Timing.Timer` and `Timing.StepTimer`;
  - `ManageEmbeddings.SyncManager`.
- Loops are methods with invariants. Each method is proved equal to a function, and the properties are proved about that function.

## Abstractions

- **Numbers.** Floating-point values are Dafny `real`s.
- **Parameters for lower-level code.** Kernels, transcendental functions, image statistics and the neural models are function-valued parameters:
  - `Similarity.Kernels`: cosine and euclidean kernels;
  - `ScoreScale.Maths`: the logistic and power curves;
  - `Decode.Codec`: base64, `imdecode` and resize failures;
  - `Pipeline.Services`: the detector, the blur and brightness measures, and the embedder.
- **Clock, randomness and environment.** Clock readings (`Timing`, `Pipeline.Clock`), the date and random hex of generated ids, and environment variables are all parameters.
- **Files.** The offline tools see their files as in-memory values:
  - Firestore documents;
  - CSV rows as dicts;
  - the five artifact files as present or absent, with their sizes;
  - pandas columns of cells that are text or NA.
- **A point where the source disagrees with its own description.** The expression index is read under the key `"expression_to_celebs"` (`backend/app/infra/celeb_store/index.py:66`). The artifact scripts instead write a plain `{label: [indices]}` object. Against those artifacts the index is empty, and expression filtering never happens: `CelebIndex.ScriptIndexIsEmpty` and `CelebIndex.EmptyIndexFailsOpen` follow the code, not the intent.
- **A file the verifier cannot read.** `manage_embeddings.py` stores `ids.npy` with `dtype=object` (`scripts/manage_embeddings.py:313`). `verify_celeb_artifacts.py` loads it with `allow_pickle=False`, so it stops there on such a file (`VerifyArtifacts.PickledIdsCrash`).

## Model

| member | source | states |
|---|---|---|
| TopK.Kept | backend/app/domain/ranking/topk.py:75-80 | never more results than pairs, never more than `k`, and none at all when `k` is not positive |
| TopK.KeptPrefix | backend/app/domain/ranking/topk.py:75-94 | the results are the leading pairs in input order, each with the same id and raw similarity, the catalog name (or the id) and the expression; every kept similarity is at least the threshold; the scan stops at the first sub-threshold pair even when later pairs are higher, and otherwise only at `k` results |
| TopK.KeptStep | backend/app/domain/ranking/topk.py:76-94 | one loop step: a sub-threshold pair or a full list ends the scan, otherwise the pair is kept and the scan goes on with one place fewer |
| TopK.SelectTopK | backend/app/domain/ranking/topk.py:67-96 | the loop returns exactly the kept prefix, with `k` and `min_similarity` taken from the settings when absent and the expression defaulting to "neutral" |
| TopK.ImageUrlPlain | backend/app/domain/ranking/topk.py:120-122 | an id without "_original" appears unchanged between "/api/celeb-image/" and "_01.jpg" |
| TopK.ImageUrlOriginal | backend/app/domain/ranking/topk.py:120-122 | an id that is some `x` (without "_original") followed by "_original" loses the marker: its URL names `x` |
| TopK.Rankings | backend/app/domain/ranking/topk.py:116-131 | at most three rankings, one per leading result, in order |
| TopK.CreateRankingResults | backend/app/domain/ranking/topk.py:114-133 | the loop yields min(3, n) rankings; the i-th is gold, silver, bronze by position, keeps the result's id and name, takes the given expression, scores the scaled score and carries the derived image URL |
| TopK.AdjustedEntries | backend/app/domain/ranking/topk.py:152-165 | one entry per input pair, same id; its similarity is lowered by `penalty*(count-limit+1)` exactly when the id was seen `count >= limit` times earlier |
| TopK.ApplyDiversity | backend/app/domain/ranking/topk.py:152-169 | the counting loop and re-sort give the stable descending sort of the adjusted list: same length, same multiset of ids, sorted non-increasing |
| TopK.DiversityIds | backend/app/domain/ranking/topk.py:164-168 | adjusting and re-sorting keeps the multiset of ids |
| TopK.PenaltySteps | backend/app/domain/ranking/topk.py:156-162 | below the limit an entry keeps its similarity; each further repeat costs one more `penalty` |
| TopK.DiversityFirstFree | backend/app/domain/ranking/topk.py:156-164 | with a positive limit the first occurrence of an id is never penalised |
| TopK.DiversityExample | backend/tests/test_ranking.py:218-226 | with penalty 0.2 and limit 1, [(A,0.9),(A,0.85),(B,0.8)] becomes [(A,0.9),(B,0.8),(A,0.65)] |
| TopK.Select | backend/app/domain/ranking/topk.py:182-214 | diversity (limit 1) is applied only when the configured penalty is positive; then the kept prefix with the configured `k` and threshold is turned into rankings |
| TopK.DefaultSelect | backend/app/domain/ranking/topk.py:35-40 | with the default configuration (k 3, threshold 0.4, no penalty) the rankings are at most three leading pairs in order, each at or above 0.4, ranked by position |
| TopK.RankNameOther | backend/app/domain/ranking/topk.py:226-227 | a position other than 1, 2 and 3 is written as its decimal number followed by 위 |
| TopK.GetTopKMatches | backend/app/domain/ranking/topk.py:231-239 | the default selector: at most three rankings of the kept prefix with k 3 and threshold 0.4 |
| Similarity.Validate | backend/app/domain/ranking/similarity.py:128-135 | no error exactly when candidates are present, ids are non-empty, candidates are 2-D, the user embedding is present and the last dimensions agree |
| Similarity.FromDistancesRange | backend/app/domain/ranking/similarity.py:141-144 | for non-negative distances each similarity `1 - d/max` lies in [0,1], the farthest candidate gets 0, and all get 1 when the largest distance is 0 |
| Similarity.FromDistancesAt | backend/app/domain/ranking/similarity.py:143-144 | the same bounds for one candidate |
| Similarity.Scores | backend/app/domain/ranking/similarity.py:137-146 | cosine uses the cosine kernel, euclidean the distance conversion, and any other method name is an "unknown method" error |
| Similarity.Pairs | backend/app/domain/ranking/similarity.py:149-152 | one `(id, similarity)` pair per id, position by position |
| Similarity.SortDesc | backend/app/domain/ranking/similarity.py:155 | the sort is a permutation, non-increasing by similarity, and keeps the input order of equal similarities |
| Similarity.ComputeSimilarities | backend/app/domain/ranking/similarity.py:105-157 | a validation failure is returned as that error; on success there is one pair per id, sorted non-increasing, a permutation of the unsorted pairs with ties in input order |
| Similarity.RankedIds | backend/app/domain/ranking/similarity.py:149-155 | the ranked ids are a permutation of the input ids |
| Similarity.FilterKeeps | backend/app/domain/ranking/similarity.py:174 | a pair survives the filter (with its multiplicity) exactly when its similarity is at least the threshold |
| Similarity.FilterSortedPrefix | backend/app/domain/ranking/similarity.py:174 | on a sorted list the filter keeps a prefix and stops at the first sub-threshold pair |
| Similarity.FilterNone | backend/app/domain/ranking/similarity.py:174 | when every similarity is below the threshold nothing is kept |
| Similarity.GetTopK | backend/app/domain/ranking/similarity.py:208-234 | fails exactly when the computation fails; otherwise the first `k` of the (optionally filtered) ranked list |
| Similarity.TopKPrefix | backend/app/domain/ranking/similarity.py:229-234 | the answer has at most `k` pairs, is a prefix of the ranked list and, with a threshold, every pair meets it |
| Sorting.SortBySorted | backend/app/domain/ranking/similarity.py:155 | the library sort returns a list sorted by the key order |
| Sorting.SortByPermutation | backend/app/domain/ranking/similarity.py:155 | the library sort returns a permutation of its input |
| Sorting.SortByStable | backend/app/domain/ranking/similarity.py:155 | the library sort keeps elements of equal key in their input order |
| ScoreScale.Clamp01 | backend/app/domain/ranking/score_scale.py:39 | the clamped similarity lies in [0,1], is the input inside that interval and the nearer end outside it |
| ScoreScale.SpreadWithin | backend/app/domain/ranking/score_scale.py:41-42 | a value in [0,1] spread over [min, max] and rounded to one decimal stays within [min, max] when both ends are multiples of 0.1 |
| ScoreScale.LinearWithin | backend/app/domain/ranking/score_scale.py:39-42 | for min ≤ max the linear score lies in [min_score, max_score] for every similarity |
| ScoreScale.LinearEnds | backend/app/domain/ranking/score_scale.py:39-42 | similarity 0 or below gives min_score, 1 or above gives max_score |
| ScoreScale.LinearHalf | backend/tests/test_ranking.py:154-167 | linear_scale(0.5, 50, 100) is 75 and linear_scale(0.5, 50, 99) is 74.5 |
| ScoreScale.LinearMonotone | backend/app/domain/ranking/score_scale.py:39-42 | the linear score never decreases as the similarity grows |
| ScoreScale.SpreadMonotone | backend/app/domain/ranking/score_scale.py:41-42 | spreading and rounding to one decimal is monotone |
| ScoreScale.Thresholds | backend/app/domain/ranking/score_scale.py:126 | the breakpoints are the map's keys in ascending order |
| ScoreScale.InterpolateAtTop | backend/app/domain/ranking/score_scale.py:139-140 | interpolating at the upper breakpoint gives that breakpoint's score |
| ScoreScale.SearchAbove | backend/app/domain/ranking/score_scale.py:129-142 | a similarity above every remaining breakpoint ends the search with max_score |
| ScoreScale.SearchBetween | backend/app/domain/ranking/score_scale.py:129-140 | a similarity in (t_{k-1}, t_k] is the interpolation between those two breakpoints' scores |
| ScoreScale.PercentileBelow | backend/app/domain/ranking/score_scale.py:129-132 | a similarity at or below the smallest breakpoint gives min_score |
| ScoreScale.PercentileAbove | backend/app/domain/ranking/score_scale.py:142 | a similarity above every breakpoint, or any similarity with an empty map, gives max_score |
| ScoreScale.PercentileBetween | backend/app/domain/ranking/score_scale.py:126-140 | between adjacent breakpoints the score is the linear interpolation of their scores, and it is exactly map[t_k] at s = t_k |
| ScoreScale.DefaultPercentileMapValid | backend/app/domain/ranking/score_scale.py:146-153 | the default map has six distinct breakpoints, already in ascending order |
| ScoreScale.DefaultPercentileExample | backend/app/domain/ranking/score_scale.py:146-153 | with the default map, 0.6 scores 77.5 and 0.7 scores 85 |
| ScoreScale.CurveOf | backend/app/domain/ranking/score_scale.py:181-203 | an unknown method name selects the linear curve; percentile uses the given map or else the default map |
| ScoreScale.UnknownMethodIsLinear | backend/app/domain/ranking/score_scale.py:201-203 | a scaler with an unknown method scores exactly as linear with the same min and max |
| ScoreScale.CurveScalersWithin | backend/app/domain/ranking/score_scale.py:185-195 | sigmoid and power scalers whose curves stay in [0,1] score within [min, max] |
| ScoreScale.ScaleBatch | backend/app/domain/ranking/score_scale.py:217-227 | one score per similarity, in order, each the scaler's score of that similarity |
| ScoreScale.LinearBatchMonotone | backend/app/domain/ranking/score_scale.py:217-227 | a linear scaler maps an ascending batch to a non-decreasing batch |
| ScoreScale.LinearBatchExample | backend/tests/test_ranking.py:195-203 | the batch [0, 0.5, 1] scales to [50, 74.5, 99], strictly increasing |
| ScoreScale.DefaultScore | backend/app/domain/ranking/score_scale.py:226-237 | `scale_similarity_to_score` is `default_scaler.scale` (the power curve with exponent 0.7 over [50, 99]), and the score lies in [50, 99] whenever the curve value lies in [0, 1] |
| ExpressionMap.Weights | backend/app/domain/expression/expression_map.py:21-48 | every channel weight in the table is positive (NEUTRAL has none) |
| ExpressionMap.CalculateExpressionScore | backend/app/domain/expression/expression_map.py:84-102 | the accumulating loop computes Σw·v / Σw over the weighted channels present, and 0 when none is present |
| ExpressionMap.TotalsBounded | backend/app/domain/expression/expression_map.py:91-97 | with channel values in [0,1] and positive weights, 0 ≤ Σw·v ≤ Σw |
| ExpressionMap.ScoreInUnit | backend/app/domain/expression/expression_map.py:94-102 | with channel values in [0,1] every expression score is in [0,1] |
| ExpressionMap.ScoreConstant | backend/app/domain/expression/expression_map.py:94-102 | when every present weighted channel holds the same value v the score is v (0 when none is present): the score is a weighted average |
| ExpressionMap.ScoreAbsent | backend/app/domain/expression/expression_map.py:84-100 | NEUTRAL, or an expression none of whose channels is present, scores 0 |
| ExpressionMap.SmileScore | backend/app/domain/expression/expression_map.py:22-29 | with all six smile channels present the smile score is 0.3a+0.3b+0.15c+0.15d+0.05e+0.05f |
| ExpressionMap.ArgMaxFirst | backend/app/domain/expression/expression_map.py:130-136 | the arg-max over SMILE, SAD, SURPRISE has the largest score and beats every expression before it strictly, so the first maximum wins ties |
| ExpressionMap.DetectExpression | backend/app/domain/expression/expression_map.py:148 | the raw scores cover all four expressions |
| ExpressionMap.DetectEmpty | backend/app/domain/expression/expression_map.py:116-127 | empty blendshapes give NEUTRAL with score 0, confidence 0 and every raw score 0 |
| ExpressionMap.DetectRule | backend/app/domain/expression/expression_map.py:129-160 | raw scores are the three scores plus `1 - max` for NEUTRAL; an expression is detected iff the maximum reaches its threshold, with score max and confidence `min(max/(thr+0.1), 1)`; otherwise NEUTRAL with score and confidence `1 - max` |
| ExpressionMap.DetectConfidenceInUnit | backend/app/domain/expression/expression_map.py:141-146 | with channel values in [0,1] the confidence is in [0,1] |
| ExpressionMap.SampleChannels | backend/tests/conftest.py:15-24 | the fixture has no sad or surprise channel |
| ExpressionMap.SampleIsSmile | backend/tests/conftest.py:15-24 | the fixture is detected as SMILE with score 0.635 and confidence 1.0 |
| ExpressionMap.ExpressionLabel | backend/app/domain/expression/expression_map.py:163-172 | every expression has its own Korean label, never the "unknown" fallback |
| ExpressionMap.ExpressionLabelsDistinct | backend/app/domain/expression/expression_map.py:166-171 | distinct expressions have distinct labels |
| ExpressionMap.ValidateExpression | backend/app/domain/expression/expression_map.py:175-181 | an expression is returned iff the lowercased text is one of the four values, and it is the one with that value |
| ExpressionMap.ValidateCaseInsensitive | backend/app/domain/expression/expression_map.py:179 | any capitalisation of an expression's value validates to that expression |
| ExpressionMap.GetDominantExpression | backend/app/domain/expression/expression_map.py:184-206 | the measured confidence is returned unchanged; the expression is NEUTRAL when the confidence is below `min_confidence` (the setting when absent) and the detected one otherwise |
| QualityGate.CheckFaceSize | backend/app/domain/expression/quality_gate.py:58-78 | the face is big enough iff both width and height are at least `min_size` (the setting when absent) |
| QualityGate.FaceSizeBoundary | backend/tests/test_quality_gate.py:78-97 | a side exactly at the minimum passes, one pixel less fails, and the image shape never matters |
| QualityGate.CheckFaceCentered | backend/app/domain/expression/quality_gate.py:81-115 | centred iff both centre offsets are strictly below `0.3·dim + margin·dim` |
| QualityGate.CenteredBox | backend/app/domain/expression/quality_gate.py:112-115 | a box centred on the image passes; an offset exactly at the bound fails (the comparison is strict) |
| QualityGate.CenteredExamples | backend/tests/test_quality_gate.py:103-116 | on a 640×480 image the box (220,140,200,200) is centred and (0,0,100,100) is not |
| QualityGate.CheckImageQuality | backend/app/domain/expression/quality_gate.py:132-160 | the scores are recorded; blurry iff blur < threshold, dark iff brightness < min, bright iff brightness > max; without a box the size and centring flags stay true, with one they are the two box checks |
| QualityGate.ValidIffNoIssues | backend/app/domain/expression/quality_gate.py:152-158 | `is_valid` is the AND of the five flags, and holds iff the issue list is empty |
| QualityGate.ValidateFaceCount | backend/app/domain/expression/quality_gate.py:163-183 | passes iff the count is neither 0 nor above `max_faces`; 0 raises NO_FACE_DETECTED with its message, too many raises MULTIPLE_FACES_DETECTED |
| QualityGate.ValidateQuality | backend/app/domain/expression/quality_gate.py:196-224 | the raised errors carry no details |
| QualityGate.ValidateQualityFirst | backend/app/domain/expression/quality_gate.py:186-224 | nothing is raised iff there is no issue; otherwise the error is that of the first failing check in the order blurry, dark, bright, too small, off-centre, an image-quality error for the first three and a face-detection error for the last two |
| QualityGate.Check | backend/app/domain/expression/quality_gate.py:258-259 | a bad face count raises its error before any quality check, whatever the mode |
| QualityGate.CheckModes | backend/app/domain/expression/quality_gate.py:261-268 | past the face count a lenient gate never raises; a strict gate raises iff the result is not valid, with the error of the first failing check |
| ResultModels.RankOf | backend/app/schemas/result_models.py:19-23 | a rank read from text has that text as its value |
| ResultModels.RankRoundTrip | backend/app/schemas/result_models.py:19-23 | every rank is read back from its own value |
| ResultModels.ExpressionOf | backend/app/schemas/result_models.py:26-31 | an expression read from text has that text as its value |
| ResultModels.ExpressionRoundTrip | backend/app/schemas/result_models.py:26-31 | every expression is read back from its value, and exactly the four values name an expression |
| ResultModels.Issues | backend/app/schemas/result_models.py:62-76 | at most five issues |
| ResultModels.SelectedPicks | backend/app/schemas/result_models.py:65-76 | the issues from check k onward are the names of failing checks, in strictly increasing check order |
| ResultModels.IssuesExactly | backend/app/schemas/result_models.py:62-76 | a check's name is listed iff that check fails, and the list follows the fixed order blurry, dark, bright, face_too_small, face_not_centered |
| ResultModels.SelectedHas | backend/app/schemas/result_models.py:65-76 | from check k on, a later check's name is listed iff it fails |
| ResultModels.OrderDistinct | backend/app/schemas/result_models.py:67-75 | the five issue names are distinct |
| ResultModels.DefaultQualityClean | backend/app/schemas/result_models.py:50-60 | a default `QualityResult` is valid with no issues |
| ResultModels.MatchesFrom | backend/app/schemas/result_models.py:136-146 | one match entry per ranking, in order, with the ranking's fields and consecutive ranks |
| ResultModels.ToResponseDict | backend/app/schemas/result_models.py:123-155 | the response keeps the session id, latency, expression value and expression confidence; its matches follow `top_matches` in order and length with rank = position + 1; its quality flags copy the five flags verbatim |
| Loader.FromCsvRow | backend/app/infra/celeb_store/loader.py:40-47 | id and name default to ""; gender and agency are the cells as given; birth year is absent iff the cell is missing or empty, and otherwise Python's `int()` of it, a non-integer being an error |
| Loader.AddRowsOk | backend/app/infra/celeb_store/loader.py:114-116 | when every row parses, loading the rows raises nothing |
| Loader.AddRowsKeys | backend/app/infra/celeb_store/loader.py:114-116 | after loading, an id is in the table iff it was there before or some row carries it |
| Loader.AddRowsLastWins | backend/app/infra/celeb_store/loader.py:114-116 | the record stored for an id is the one parsed from the last row with that id |
| Loader.AddRowsUntouched | backend/app/infra/celeb_store/loader.py:114-116 | a record whose id no row carries is left as it was |
| Loader.IdIndexLast | backend/app/infra/celeb_store/loader.py:152-153 | an id is in the index iff it is in the ids array, and it maps to the last position holding it |
| Loader.CelebDataLoader.constructor | backend/app/infra/celeb_store/loader.py:70-79 | a new loader has empty tables, no arrays and is not loaded |
| Loader.CelebDataLoader.Load | backend/app/infra/celeb_store/loader.py:82-102 | once loaded, a call changes nothing; otherwise the CSV rows are stored, a row that does not parse raises and leaves the loader not loaded, and else the arrays and index are loaded and the flag is set |
| Loader.CelebDataLoader.LoadCelebsMeta | backend/app/infra/celeb_store/loader.py:105-116 | the loop stores every row under its id in order (nothing when the file is missing) and stops at the first row that does not parse |
| Loader.CelebDataLoader.LoadEmbeddings | backend/app/infra/celeb_store/loader.py:119-153 | a missing embeddings file changes nothing, an unreadable one clears the embeddings; a missing ids file keeps the old ids, an unreadable one clears them; otherwise the loop adds every id's position to the index |
| Loader.CelebDataLoader.CelebName | backend/app/infra/celeb_store/loader.py:178-181 | the stored name of a known id, and the id itself for an unknown one |
| Loader.CelebDataLoader.GetEmbedding | backend/app/infra/celeb_store/loader.py:183-188 | the id's row when the embeddings are loaded and the id is indexed, nothing when the embeddings are missing or the id is unknown |
| Loader.CelebDataLoader.GetAllEmbeddings | backend/app/infra/celeb_store/loader.py:191-197 | both arrays iff both are loaded, and otherwise the error "Embeddings not loaded" |
| Loader.NameOf | backend/app/infra/celeb_store/loader.py:178-181 | a record's name, even "", when the id is known, and the id when it is not |
| Loader.NameAfterLoad | backend/app/infra/celeb_store/loader.py:114-116 | after loading, an id's name is the name cell of its last row ("" when that row has none) |
| Loader.NameWithoutRow | backend/app/infra/celeb_store/loader.py:178-181 | an id no row carries is named by itself |
| CelebIndex.Entries | backend/app/infra/celeb_store/index.py:70 | the table's `(expression, ids)` items in insertion order |
| CelebIndex.StringList | backend/app/infra/celeb_store/index.py:66-71 | a JSON value reads as an id list exactly when it is a list whose every item is a string, and then the ids are those strings in order |
| CelebIndex.Strings | backend/app/infra/celeb_store/index.py:71 | a list of JSON items reads as ids exactly when every item is a string; the ids are the items' strings, position by position |
| CelebIndex.TableOf | backend/app/infra/celeb_store/index.py:66 | a missing `expression_to_celebs` key gives the empty table; a value that is not an object is refused; an object is read exactly when each of its values is a list of strings, and then the table has the object's keys in the object's order, each with its strings |
| CelebIndex.IndicesOf | backend/app/infra/celeb_store/index.py:67 | a missing `expression_to_indices` key gives an empty object, and a present value is kept as it is, whatever its JSON type |
| CelebIndex.RFindLast | backend/app/infra/celeb_store/index.py:91-92 | the position found is the last occurrence of the character, or -1 when there is none |
| CelebIndex.StemSuffix | backend/app/infra/celeb_store/index.py:91-92 | a file name is its stem followed by its suffix |
| CelebIndex.ImageFileName | backend/app/infra/celeb_store/index.py:91-92 | a file named id + ".jpg"/".jpeg"/".png" is admitted and its stem is the id |
| CelebIndex.DirTable | backend/app/infra/celeb_store/index.py:83-93 | building from directories keeps the table a well-formed dictionary |
| CelebIndex.ReverseCount | backend/app/infra/celeb_store/index.py:70-74 | in the reverse index an id lists an expression once per occurrence of the id in that expression's list |
| CelebIndex.ReverseCountPrefix | backend/app/infra/celeb_store/index.py:70-74 | the same count over the first n expressions |
| CelebIndex.TargetMask | backend/app/infra/celeb_store/index.py:137 | one flag per id, set iff the id is in the target set |
| CelebIndex.RevStep | backend/app/infra/celeb_store/index.py:72-74 | appending the expression to an id's list extends the reverse index by that id |
| CelebIndex.RevClose | backend/app/infra/celeb_store/index.py:70-74 | finishing one expression's list adds it to the reverse index built so far |
| CelebIndex.ExprsSnoc | backend/app/infra/celeb_store/index.py:70-74 | one more expression adds it to an id's reverse list as often as the id occurs in its list |
| CelebIndex.DirStep | backend/app/infra/celeb_store/index.py:83-88 | a non-directory entry is skipped; a directory sets its expression to the list of its image stems |
| CelebIndex.ImagesStep | backend/app/infra/celeb_store/index.py:90-93 | an image file adds its stem to the list, any other file is skipped |
| CelebIndex.SubDirStep | backend/app/infra/celeb_store/index.py:90-97 | one file of a directory: an image extends both the forward list and the reverse index, anything else changes neither |
| CelebIndex.RevFromEmpty | backend/app/infra/celeb_store/index.py:70-74 | a reverse index built from nothing lists, for every id, exactly the expressions derived from the entries |
| CelebIndex.ExpressionIndex.constructor | backend/app/infra/celeb_store/index.py:30-42 | a new index is empty and not loaded |
| CelebIndex.ExpressionIndex.LoadFromJson | backend/app/infra/celeb_store/index.py:61-74 | the two tables are taken from the file and the nested loops add every listed id's expressions to the reverse index |
| CelebIndex.ExpressionIndex.BuildFromDirectory | backend/app/infra/celeb_store/index.py:76-97 | the loops set one list of image stems per sub-directory and extend the reverse index with them |
| CelebIndex.ExpressionIndex.IndexSubDir | backend/app/infra/celeb_store/index.py:87-97 | one sub-directory's list is its image stems in order, each added to the reverse index |
| CelebIndex.ExpressionIndex.Load | backend/app/infra/celeb_store/index.py:44-58 | a loaded index is never changed again; otherwise the JSON file, the image directories or nothing fills the tables, with the reverse index exactly derived from them, and the flag is set; a malformed file changes nothing |
| CelebIndex.ExpressionIndex.GetCelebsByExpression | backend/app/infra/celeb_store/index.py:108-110 | the expression's id list, or [] when it is unknown |
| CelebIndex.ExpressionIndex.GetIndicesByExpression | backend/app/infra/celeb_store/index.py:112-114 | when the stored indices are an object, the value stored under a known expression and [] for an unknown one; when they are not an object, no answer (`.get` on a non-dict raises) |
| CelebIndex.ExpressionIndex.GetExpressionsByCeleb | backend/app/infra/celeb_store/index.py:116-118 | the stored expression list for a known id and [] for an unknown one |
| CelebIndex.ExpressionIndex.CountByExpression | backend/app/infra/celeb_store/index.py:144-146 | the length of the expression's list, 0 for an unknown expression |
| CelebIndex.ExpressionIndex.GetFilteredEmbeddings | backend/app/infra/celeb_store/index.py:120-138 | the filter of the module-level function over the index's table, including its two mask failures |
| CelebIndex.CelebsIn | backend/app/infra/celeb_store/index.py:110 | the expression's id list, [] when it is unknown |
| CelebIndex.FilterEmbeddings | backend/app/infra/celeb_store/index.py:132-138 | with no target ids the inputs come back unchanged (fail-open); with targets, an empty id list fails exactly as numpy does on an empty float mask, a mask that does not fit the embeddings fails, and otherwise exactly the rows whose id is a target remain, in their order, embeddings and ids kept aligned, the row shape unchanged |
| CelebIndex.ScriptIndexIsEmpty | backend/app/infra/celeb_store/index.py:66 | an index file without an `expression_to_celebs` key, as the catalog scripts write it, loads as an empty table |
| CelebIndex.EmptyIndexFailsOpen | backend/app/infra/celeb_store/index.py:132-146 | with an empty table no expression is known, counts are 0 and filtering returns every candidate |
| CelebIndex.EmptyListFailsOpen | backend/app/infra/celeb_store/index.py:132-142 | an expression with an empty list is known, counts 0, and filtering still returns every candidate |
| Arrays.SelectRows | backend/app/infra/celeb_store/index.py:138 | boolean-mask indexing keeps the masked rows, the row shape and a first dimension equal to the row count |
| Arrays.Kept | backend/app/infra/celeb_store/index.py:137-138 | the kept positions are exactly the set flags, in increasing order |
| Arrays.MaskedAt | backend/app/infra/celeb_store/index.py:138 | the i-th element of a masked sequence is the element at the i-th kept position |
| Arrays.MaskedAll | backend/app/infra/celeb_store/index.py:137-138 | an all-true mask keeps everything |
| Config.StripAll | backend/app/core/config.py:78 | one stripped piece per piece, in order |
| Config.ListSettingWildcard | backend/app/core/config.py:75-77 | an empty or "*" setting gives ["*"] |
| Config.ListSettingPieces | backend/app/core/config.py:78 | any other setting gives one piece per comma-separated field, count and order kept, each the stripped field (empty fields kept as "") and none containing a comma |
| Config.FourPieces | backend/app/core/config.py:78 | four comma-free parts joined by commas give four entries |
| Config.DefaultOriginsCount | backend/app/core/config.py:69 | the default origins setting yields four entries |
| DebugTools.TraceEnabled | backend/app/core/debug_tools.py:19-32 | when the variable is set the result is whether its stripped, lowercased value is one of 1, true, yes, y, on; when unset it is `settings.debug` |
| DebugTools.TraceEnabledPadded | backend/app/core/debug_tools.py:29-31 | surrounding whitespace in the variable does not matter |
| DebugTools.TruncateShort | backend/app/core/debug_tools.py:34-37 | None gives "", and a string of at most n characters is unchanged |
| DebugTools.TruncateLong | backend/app/core/debug_tools.py:37 | a longer string becomes its first n characters, then "...(len=", its decimal length and ")" |
| DebugTools.Brief | backend/app/core/debug_tools.py:53-89 | each kind of value (None, array, bytes, str, dict, list/tuple/set) gets its own kind of summary, and only it |
| DebugTools.BriefSummaries | backend/app/core/debug_tools.py:53-82 | None stays None; an array gives its shape, dtype, and its min, max and NaN flag where those can be computed; bytes give their length; a str gives its length and its first 80 characters; a dict gives its first 30 keys and its length; a list, tuple or set gives its length |
| Decode.InvalidFormat | backend/app/infra/images/decode.py:108-111 | the wrapping error is an image-quality error with code IMAGE_INVALID_FORMAT |
| Decode.FormatPart | backend/app/infra/images/decode.py:56-57 | a format is read iff the header contains "image/", and it is the lowercased text after the first "image/" up to the next ";" |
| Decode.PrefixOfPiece | backend/app/infra/images/decode.py:57 | the format text is a `;`-free prefix of what follows "image/" |
| Decode.Payload | backend/app/infra/images/decode.py:51-64 | a non-"data:" input is decoded whole; a "data:" input without a comma fails the unpacking and is wrapped as IMAGE_INVALID_FORMAT |
| Decode.Scaled | backend/app/infra/images/decode.py:126-133 | the scaled side is `int(side·max_dim/longer)`: the truncation of the exact value, and at most `max_dim` |
| Decode.ScaledBound | backend/app/infra/images/decode.py:126-133 | the exact scaled side lies in [0, max_dim] |
| Decode.ResizeAspect | backend/app/infra/images/decode.py:126-133 | the longer side (height when w == h) becomes `max_dim` and the other the truncated proportional side, at most `max_dim` |
| Decode.DecodeBase64Image | backend/app/infra/images/decode.py:35-111 | every failure is an image-quality error, IMAGE_INVALID_FORMAT or IMAGE_TOO_LARGE, and every decoded image has both sides in (0, 4096] |
| Decode.DecodePayload | backend/app/infra/images/decode.py:66-102 | the same guarantee for the decoding of the payload |
| Decode.DecodeRules | backend/app/infra/images/decode.py:70-102 | more than `MAX_IMAGE_SIZE` decoded bytes iff IMAGE_TOO_LARGE; undecodable bytes give the decoding failure; a side below 100 gives IMAGE_INVALID_FORMAT; within the limits the image is kept, and a side above 4096 makes it resized |
| Decode.DataUrlSplit | backend/app/infra/images/decode.py:53 | a data URL splits at its first comma into the header and the payload |
| Decode.TypedHeader | backend/app/infra/images/decode.py:56-62 | with "image/" in the header the payload is used iff the format is jpeg, jpg, png or webp, and otherwise the unsupported-format error names it |
| Decode.UntypedHeader | backend/app/infra/images/decode.py:51-67 | a header without "image/" is not checked: the payload is decoded as if sent bare |
| Errors.FromValue | backend/app/core/errors.py:11-40 | a code read from text has that text as its value |
| Errors.ValueRoundTrip | backend/app/core/errors.py:11-40 | every code is read back from its value |
| Errors.ValuesDistinct | backend/app/core/errors.py:14-40 | distinct codes have distinct values |
| Errors.ValueFormat | backend/app/core/errors.py:14-40 | every value is "E" followed by three digits, the first naming the category: 1 face, 2 image, 3 expression, 4 system, 5 WebSocket |
| Errors.DefaultMessageDefined | backend/app/core/errors.py:44-67 | every code has its own non-empty message, so the "unknown error" fallback is never used |
| Errors.NewError | backend/app/core/errors.py:73-82 | the error keeps its kind and code |
| Errors.NewErrorMessage | backend/app/core/errors.py:80 | a given non-empty message is kept; a missing or empty one becomes the code's default; the message is never empty |
| Errors.NewErrorDetails | backend/app/core/errors.py:81 | details default to {} |
| Errors.Raise | backend/app/core/errors.py:73-81 | an error raised without message or details carries the default message and no details |
| Errors.RaiseWith | backend/app/core/errors.py:73-81 | an error raised with a message carries no details |
| Errors.ToDict | backend/app/core/errors.py:84-90 | the dictionary holds the code's value, the message and the details |
| Errors.CreateErrorResponse | backend/app/core/errors.py:118-124 | the response has type "error" and carries `to_dict` of the error |
| FaceCrop.SliceLen | backend/app/domain/embedding/face_crop.py:48 | a NumPy slice of an axis is never longer than the axis |
| FaceCrop.CropWindow | backend/app/domain/embedding/face_crop.py:37-45 | the window is clamped to the image: x1 ≥ 0, y1 ≥ 0, x2 ≤ W, y2 ≤ H |
| FaceCrop.CropContainsBox | backend/app/domain/embedding/face_crop.py:38-48 | for a non-negative margin and a box inside the image, the window contains the box and the slice is exactly the window, at least the box's size |
| FaceCrop.CropFace | backend/app/domain/embedding/face_crop.py:34-54 | the crop is the clamped window; with a target size the result has that width and height, and without one the size of the slice |
| FaceCrop.CropFaceResizes | backend/app/domain/embedding/face_crop.py:48-52 | a non-empty window resized to a positive target size has exactly that size |
| FaceCrop.MinOf | backend/app/domain/embedding/face_crop.py:128-129 | `min` of the coordinates: one of them, and at most each |
| FaceCrop.MaxOf | backend/app/domain/embedding/face_crop.py:130-131 | `max` of the coordinates: one of them, and at least each |
| FaceCrop.Scaled | backend/app/domain/embedding/face_crop.py:125-126 | one pixel coordinate per landmark |
| FaceCrop.LandmarkBox | backend/app/domain/embedding/face_crop.py:128-133 | the derived box has a non-negative width and height |
| FaceCrop.ExtractFaceFromLandmarks | backend/app/domain/embedding/face_crop.py:103-135 | None exactly for empty landmarks; otherwise the crop of the box from the truncated smallest to the truncated largest coordinates, with margin 0.2 and the target size |
| FaceCrop.LandmarksInBox | backend/app/domain/embedding/face_crop.py:125-133 | every landmark's truncated pixel position falls inside the derived box |
| FaceCrop.GetEyeLandmarks | backend/app/domain/embedding/face_crop.py:138-165 | None for fewer than 468 landmarks; otherwise the left eye is the mean of landmarks 33 and 133 and the right eye the mean of 362 and 263 |
| FaceCrop.EyesBetween | backend/app/domain/embedding/face_crop.py:155-163 | each eye lies between the two landmarks it averages |
| FaceCrop.CropWith | backend/app/domain/embedding/face_crop.py:207-235 | the face is aligned iff alignment is on and at least 468 landmarks are given, then at the target size; otherwise it is the plain crop of the box with the configured margin and target size |
| Ids.EmptyInvalid | backend/app/utils/ids.py:64-85 | None and "" are invalid for all three validators |
| Ids.Ymd | backend/app/utils/ids.py:27 | the `%Y%m%d` stamp of a four-digit year has eight characters |
| Ids.YmdDigits | backend/app/utils/ids.py:27 | the stamp consists of ASCII digits |
| Ids.GeneratedSessionValid | backend/app/utils/ids.py:20-29 | a generated session id is "sess_" + YYYYMMDD + "_" + eight hex characters, and it validates |
| Ids.GeneratedTaggedValid | backend/app/utils/ids.py:32-47 | generated analysis and result ids (prefix + the first 12 characters of a UUID hex) always validate |
| Ids.GetOrCreateSessionId | backend/app/utils/ids.py:101-108 | the input is returned iff it is a valid session id, and a fresh id otherwise |
| Ids.GetOrCreateValid | backend/app/utils/ids.py:101-108 | the returned session id always validates |
| Ids.StrpYmd | backend/app/utils/ids.py:96 | a date parsed from eight digits is a calendar date |
| Ids.MonthOf | backend/app/utils/ids.py:96 | a parsed month is between 1 and 12 |
| Ids.DayOf | backend/app/utils/ids.py:96 | a parsed day is between 1 and 31 |
| Ids.ExtractDateFromSessionId | backend/app/utils/ids.py:88-98 | None for an invalid id, and any date returned is a calendar date |
| Ids.SecondPiece | backend/app/utils/ids.py:95 | splitting a session id at "_" gives the eight-digit segment as its second piece |
| Ids.SecondPieceKept | backend/app/utils/ids.py:95 | the same with the trailing newline the pattern admits |
| Ids.StrpYmdRoundTrip | backend/app/utils/ids.py:96 | parsing the stamp of a calendar date gives that date back |
| Ids.ExtractDateRoundTrip | backend/app/utils/ids.py:88-98 | the date extracted from a generated session id is the day it was generated |
| Ids.TrailingNewline | backend/app/utils/ids.py:59 | a valid id followed by one "\n" still validates (`$` admits a final newline) and yields the same date |
| Ids.UnicodeDigits | backend/app/utils/ids.py:59 | non-ASCII digits validate under `\d`, but the date cannot be parsed from them, so no date is returned |
| Ids.ImpossibleDate | backend/app/utils/ids.py:88-98 | "sess_20240230_…" validates but yields no date |
| WsApi.SeqOf | backend/app/api/ws.py:51-53 | a missing or falsy `seq` gives 0; otherwise the result is the integer itself, 0, or comes from a float, string or bool that Python's `int()` reads |
| WsApi.GuessSessionSeq | backend/app/api/ws.py:46-54 | a payload that is not a dict gives a fresh session id and sequence 0; otherwise a truthy `session_id` is kept, a falsy or missing one is replaced by a fresh id, and the sequence is `SeqOf` of the `seq` field |
| WsApi.SeqUnreadable | backend/app/api/ws.py:50-53 | a `seq` that `int()` rejects (text without spaces that starts with a letter, such as "abc") falls back to 0 instead of raising |
| WsApi.MapErrorCodeToFront | backend/app/api/ws.py:57-74 | each front-end code is produced by exactly the internal codes the table maps to it, and every other code, mapped or not, gives DECODE_FAIL |
| WsApi.UnmappedCodes | backend/app/api/ws.py:74 | codes absent from the table (image too bright, face too small, session expired) take the DECODE_FAIL default |
| WsApi.Clamp100 | backend/app/api/ws.py:154 | the result lies in 0..100 and equals the input when the input is already in range |
| WsApi.ItemFor | backend/app/api/ws.py:153-165 | an item's 0..100 score is the half-even rounded match score clamped to 0..100 |
| WsApi.ItemForValid | backend/app/api/ws.py:153-165 | for the first three positions the item satisfies the `ResultItem` field bounds and its similarity is the rounded hundredths of the 0..100 score |
| WsApi.BuildResultItems | backend/app/api/ws.py:151-165 | at most three items, one per leading match, each ranked position+1, valid under `ResultItem`'s bounds and carrying that match's id and name |
| WsApi.ResultMessageFor | backend/app/api/ws.py:167-175 | the message is built exactly when the analysis time is non-negative, and then it is valid and carries the items, the expression value, the quality issues, "cosine" and the request's session and sequence |
| WsMessages.Steps | backend/app/schemas/ws_messages.py:32-37 | the six analysis steps are pairwise distinct, as are their wire values |
| WsMessages.StepIndex | backend/app/schemas/ws_messages.py:32-37 | every step occurs in the step list at the returned index |
| WsMessages.StepsComplete | backend/app/schemas/ws_messages.py:32-37 | every step is listed, in the order received, face detected, expression analysed, embedding extracted, matching, completed |
| WsMessages.StrField | backend/app/schemas/ws_messages.py:44-48 | a required string field parses exactly when it is present and a string, yielding that string |
| WsMessages.NatField | backend/app/schemas/ws_messages.py:45-46 | an integer field parses exactly when it is present, pydantic's lax mode reads an integer from it (an int, a bool, a whole float or a numeric string) and that integer is non-negative (`ge=0`); otherwise the error names the field |
| WsMessages.NatFieldAccepts | backend/app/schemas/ws_messages.py:45-46 | a non-negative int, the same number as a whole float or as its decimal text all give that number; true and false give 1 and 0; a missing field, null, a list or an object is refused |
| WsMessages.NatFieldRefusesNegative | backend/app/schemas/ws_messages.py:45-46 | a negative integer is refused by `ge=0` |
| WsMessages.FormatField | backend/app/schemas/ws_messages.py:47 | an accepted image format is always "jpeg" |
| WsMessages.ParseAnalyzeRequest | backend/app/schemas/ws_messages.py:42-48 | every accepted analyze request satisfies the model's constraints; its integer fields are read in pydantic's lax mode |
| WsMessages.AnalyzeRequestFields | backend/app/schemas/ws_messages.py:42-48 | a request parses exactly when each of its five fields parses, and the parsed session id and image are the payload's own strings |
| WsMessages.ParseClientMessage | backend/app/schemas/ws_messages.py:109-115 | type "ping" gives a ping, type "analyze" succeeds exactly when the request parses and wraps it, and any other type is an unknown-type error |
| Timing.Millis | backend/app/utils/timeit.py:33 | an elapsed time is non-negative when the readings are ordered, and is the difference of the readings in milliseconds |
| Timing.Timer.constructor | backend/app/utils/timeit.py:17-21 | a new timer keeps its name, has no start or end reading and 0.0 elapsed |
| Timing.Timer.Start | backend/app/utils/timeit.py:23-26 | starting records the reading and changes nothing else |
| Timing.Timer.Stop | backend/app/utils/timeit.py:28-34 | stopping an unstarted timer is the "Timer was not started" error and changes nothing; otherwise it records the end reading and returns and stores the elapsed milliseconds |
| Timing.CloseStep | backend/app/utils/timeit.py:116-117 | closing a step keeps the step table a well-formed ordered dict |
| Timing.CloseStepRecords | backend/app/utils/timeit.py:113-117 | with a non-empty current name and a non-zero start reading the step's duration is stored under its name (appended as a new key only if absent); every other entry is unchanged, and a zero start reading records nothing |
| Timing.TotalOf | backend/app/utils/timeit.py:138-141 | the total is the "total" entry, or 0.0 when there is none |
| Timing.Stopped | backend/app/utils/timeit.py:124-136 | the table after stopping is a well-formed ordered dict |
| Timing.StoppedTotal | backend/app/utils/timeit.py:124-141 | after stopping with a set overall start the total is the overall elapsed time; without one stopping only closes the last step |
| Timing.StepNamedTotal | backend/app/utils/timeit.py:129-134 | closing a step named "total" writes `total_ms` as that step's own duration, before any stop |
| Timing.StepTimer.constructor | backend/app/utils/timeit.py:100-104 | a new step timer has no steps, no current step and no readings, and its total is 0.0 |
| Timing.StepTimer.Start | backend/app/utils/timeit.py:106-109 | starting records the overall start reading and changes nothing else |
| Timing.StepTimer.Step | backend/app/utils/timeit.py:111-122 | a new step closes the previous one as `CloseStep` says and becomes current with the given reading |
| Timing.StepTimer.Stop | backend/app/utils/timeit.py:124-136 | stopping stores and returns the table `Stopped` describes and leaves the current step and readings as they were |
| Paths.NewCelebPaths | backend/app/infra/celeb_store/paths.py:14-15 | a given non-empty base directory is used, and a missing or empty one falls back to the configured data directory |
| Paths.Layout | backend/app/infra/celeb_store/paths.py:19-76 | each directory (meta, embeddings, images, cache) is the base directory followed by its fixed relative location |
| Paths.FileLayout | backend/app/infra/celeb_store/paths.py:24-69 | each file (the two CSVs, the two arrays, the expression index, an image) is the base directory followed by its fixed relative location, and an image path defaults to the "jpg" extension (joined as text; see Left out) |
| Paths.Validate | backend/app/infra/celeb_store/paths.py:80-90 | each check reports whether its path exists |
| Paths.IsValidExactly | backend/app/infra/celeb_store/paths.py:80-94 | the store is valid exactly when all six required paths exist, and the images CSV and expression index do not affect validity |
| Paths.RequiredDistinct | backend/app/infra/celeb_store/paths.py:82-89 | the images CSV and the expression index are not among the required paths |
| Pipeline.Progress | backend/app/domain/pipeline/analyze_pipeline.py:111-192 | a complete analysis sends six progress events |
| Pipeline.ProgressSteps | backend/app/domain/pipeline/analyze_pipeline.py:111-192 | the events go through the analysis steps in declaration order, and the percentage rises strictly from a positive start to 100 |
| Pipeline.SentNext | backend/app/domain/pipeline/analyze_pipeline.py:220-232 | each notification adds exactly the next event to what the callback has seen, or nothing when there is no callback |
| Pipeline.Internal | backend/app/domain/pipeline/analyze_pipeline.py:213-218 | an unexpected exception becomes an INTERNAL_ERROR whose message is the fixed Korean prefix followed by the exception text |
| Pipeline.Raised | backend/app/domain/pipeline/analyze_pipeline.py:211-218 | a BeautyInsideError is re-raised unchanged and anything else is wrapped as an internal error |
| Pipeline.AnalysisTime | backend/app/domain/pipeline/analyze_pipeline.py:191-200 | the analysis time is the truncated overall elapsed milliseconds, non-negative for ordered readings, and 0 when the start reading is 0.0 (falsy) |
| Pipeline.TimerTotal | backend/app/domain/pipeline/analyze_pipeline.py:103-200 | the step timer's total after stop is the overall elapsed time, or 0.0 when the start reading is falsy |
| Pipeline.NoTotalAfter | backend/app/domain/pipeline/analyze_pipeline.py:112-168 | none of the pipeline's own steps writes a "total" entry |
| Pipeline.NoTotal | backend/app/domain/pipeline/analyze_pipeline.py:112-168 | closing a step not named "total" leaves no "total" entry |
| Pipeline.CandidatesFiltered | backend/app/domain/pipeline/analyze_pipeline.py:173-180 | without filtering, or for an expression the index lacks, the whole catalog is matched; filtered with listed ids, an empty catalog fails on numpy's float mask and a mask that does not fit the embeddings fails, and otherwise exactly the listed ids remain with their own rows |
| Pipeline.Expected | backend/app/domain/pipeline/analyze_pipeline.py:109-218 | between one and six events are sent, and the analysis succeeds exactly when all six are |
| Pipeline.FromImage | backend/app/domain/pipeline/analyze_pipeline.py:119-209 | after decoding at least two events are sent, and success means all six |
| Pipeline.FromQuality | backend/app/domain/pipeline/analyze_pipeline.py:138-209 | once the gate has passed at least four events are sent, and success means all six |
| Pipeline.FromEmbedding | backend/app/domain/pipeline/analyze_pipeline.py:167-209 | once the embedding is extracted at least five events are sent, and success means all six |
| Pipeline.StageErrors | backend/app/domain/pipeline/analyze_pipeline.py:109-218 | a failure after the first event is an image error from the decoder; one after the fifth is always an internal error; no analysis stops after the third |
| Pipeline.FaceCountRefused | backend/app/domain/pipeline/analyze_pipeline.py:123-126 | with no face, or more than the allowed number, the analysis stops after the second event with the face-count error (NO_FACE_DETECTED or MULTIPLE_FACES_DETECTED) |
| Pipeline.DetectorFailure | backend/app/domain/pipeline/analyze_pipeline.py:123 | a detector that raises stops the analysis after the second event; its own error is kept and any other exception is wrapped as internal |
| Pipeline.SuccessFields | backend/app/domain/pipeline/analyze_pipeline.py:128-201 | a successful result carries the session id, the first face's dominant expression (neutral at 0.5 without blendshapes), the quality gate's verdict on the first face, at most three matches and the timer's analysis time |
| Pipeline.AnalyzePipeline.constructor | backend/app/domain/pipeline/analyze_pipeline.py:58-74 | a missing configuration becomes the default one, the quality gate takes its strictness from it, and no data is loaded yet |
| Pipeline.AnalyzePipeline.EnsureDataLoaded | backend/app/domain/pipeline/analyze_pipeline.py:76-81 | each shared store is taken only when the pipeline does not have one yet |
| Pipeline.AnalyzePipeline.NotifyProgress | backend/app/domain/pipeline/analyze_pipeline.py:220-232 | the callback is called with the event exactly when there is one, and a callback that raises is only warned about |
| Pipeline.AnalyzePipeline.GateStage | backend/app/domain/pipeline/analyze_pipeline.py:123-135 | detection, face count and quality gate give the result the function Gated describes |
| Pipeline.AnalyzePipeline.EmbedStage | backend/app/domain/pipeline/analyze_pipeline.py:157-164 | crop and embedding give the result the function Embedded describes |
| Pipeline.AnalyzePipeline.MatchStage | backend/app/domain/pipeline/analyze_pipeline.py:173-188 | catalog, expression filter, similarities and Top-K give the result the function Matched describes |
| Pipeline.AnalyzePipeline.Stages | backend/app/domain/pipeline/analyze_pipeline.py:109-218 | from the first step on, the result and the events sent are those of Expected |
| Pipeline.AnalyzePipeline.DetectOnward | backend/app/domain/pipeline/analyze_pipeline.py:119-218 | from face detection on, the result and the events are those of FromImage |
| Pipeline.AnalyzePipeline.EmbedOnward | backend/app/domain/pipeline/analyze_pipeline.py:138-218 | from the expression step on, the result and the events are those of FromQuality |
| Pipeline.AnalyzePipeline.MatchOnward | backend/app/domain/pipeline/analyze_pipeline.py:167-218 | from matching on, the result and the events are those of FromEmbedding |
| Pipeline.AnalyzePipeline.Analyze | backend/app/domain/pipeline/analyze_pipeline.py:83-218 | the session id is settled, the shared stores taken, and the result and the events sent are those of Expected on their catalog (loading itself: see Left out) |
| ManageEmbeddings.LiftKeys | scripts/manage_embeddings.py:151-169 | a loaded CSV row is stored under the id (and expression) it carries itself |
| ManageEmbeddings.PutMatching | scripts/manage_embeddings.py:152 | storing a row under its own id keeps every stored celebrity row under its own id |
| ManageEmbeddings.PutImageMatching | scripts/manage_embeddings.py:169 | storing an image row under its own id and expression keeps every stored image row under its own key |
| ManageEmbeddings.MergedCelebs | scripts/manage_embeddings.py:195-216 | merging the fetched documents into the celebrity table keeps it a well-formed ordered dict |
| ManageEmbeddings.MergedImages | scripts/manage_embeddings.py:218-227 | merging the fetched documents into the image table keeps it a well-formed ordered dict |
| ManageEmbeddings.NewIds | scripts/manage_embeddings.py:197-207 | the new ids are exactly the fetched ids absent from the local table |
| ManageEmbeddings.CelebsMergedAt | scripts/manage_embeddings.py:195-216 | after the merge each id's row is: the local row for an id not fetched; a fresh row from the document for a new id; the local row with gender, birth year and agency overwritten in sync mode; the local row unchanged in merge mode |
| ManageEmbeddings.ImagesMergedAt | scripts/manage_embeddings.py:218-227 | after the merge an image key keeps its local row when it has one, and otherwise gets a row built from the document whose id and expression form that key |
| ManageEmbeddings.MergedUnion | scripts/manage_embeddings.py:188-227 | the merged celebrity table holds exactly the local ids and the fetched ids |
| ManageEmbeddings.SortedKeys | scripts/manage_embeddings.py:271 | the keys sorted by a total order: each key exactly once, in strictly increasing order |
| ManageEmbeddings.SortedIds | scripts/manage_embeddings.py:271 | the celebrity ids in strictly increasing code-point order, each exactly once |
| ManageEmbeddings.SortedImageKeys | scripts/manage_embeddings.py:290 | the (id, expression) keys in strictly increasing lexicographic order, each exactly once |
| ManageEmbeddings.CelebsCsv | scripts/manage_embeddings.py:263-280 | one line per celebrity, in sorted id order, each built from its row with the written defaults |
| ManageEmbeddings.ImagesCsv | scripts/manage_embeddings.py:282-296 | one line per image key, in sorted key order, each built from its row with the written defaults |
| ManageEmbeddings.CelebsCsvOrdered | scripts/manage_embeddings.py:271-280 | the written celebs.csv lists every celebrity exactly once, by strictly increasing id |
| ManageEmbeddings.ImagesCsvOrdered | scripts/manage_embeddings.py:290-296 | the written images.csv lists every image key exactly once, by strictly increasing (id, expression) |
| ManageEmbeddings.NewCelebLines | scripts/manage_embeddings.py:110-117 | a new celebrity is written with its document's id, its name (empty when missing) as both name columns, and its other fields; its image line carries the document's path and expression (neutral by default) |
| ManageEmbeddings.Zeros | scripts/manage_embeddings.py:309 | the zero vector has the requested length and only zeros |
| ManageEmbeddings.EmbeddingOf | scripts/manage_embeddings.py:305-310 | a celebrity's row is its fetched embedding, or the 512-wide zero vector when it has none |
| ManageEmbeddings.Missing | scripts/manage_embeddings.py:302-310 | the missing ids are exactly the listed ids without a fetched embedding |
| ManageEmbeddings.Stacked | scripts/manage_embeddings.py:312 | the rows stack into a matrix exactly when they all have the same length, and the matrix keeps the rows with shape (rows, width), or (0,) when there are none |
| ManageEmbeddings.Rows | scripts/manage_embeddings.py:304-310 | one embedding row per id, in order |
| ManageEmbeddings.RowsNext | scripts/manage_embeddings.py:304-310 | each id adds its own row, and adds itself to the missing list exactly when it lacks an embedding |
| ManageEmbeddings.FullWidthValidates | scripts/manage_embeddings.py:298-353 | when every fetched embedding is 512 wide the arrays are saved, the ids are the sorted celebrity ids, and a non-empty table gives a (count, 512) matrix that passes validation |
| ManageEmbeddings.LastRowWins | scripts/manage_embeddings.py:150-152 | after loading, an id's row is its last row in the file, or the previous one when the file has none |
| ManageEmbeddings.LoadCelebRows | scripts/manage_embeddings.py:150-152 | the table after loading is every file row stored in turn under its own id |
| ManageEmbeddings.LoadImageRows | scripts/manage_embeddings.py:165-169 | the table after loading is every file row stored in turn under its own (id, expression) |
| ManageEmbeddings.KeysMapped | scripts/manage_embeddings.py:195 | every key of an ordered dict is mapped |
| ManageEmbeddings.MergeSnoc | scripts/manage_embeddings.py:195-227 | merging one more fetched id extends both tables and the new-id list by exactly that id's merge step |
| ManageEmbeddings.MergedKeys | scripts/manage_embeddings.py:188-207 | the merged celebrity table keeps the local ids in their order and appends the new ids in fetched order |
| ManageEmbeddings.CelebStep | scripts/manage_embeddings.py:197-216 | one merge step keeps rows under their own ids and appends the id only when it is new |
| ManageEmbeddings.ImageStep | scripts/manage_embeddings.py:219-227 | one merge step keeps image rows under their own keys and adds one key only when it is new |
| ManageEmbeddings.MergeOneCeleb | scripts/manage_embeddings.py:197-216 | one fetched celebrity is merged as the merge step says, counted as added exactly when it is new and as updated exactly when it already exists in sync mode |
| ManageEmbeddings.MergeOneImage | scripts/manage_embeddings.py:219-227 | one fetched image is merged as the merge step says, counted as added exactly when its key is new |
| ManageEmbeddings.MergeTables | scripts/manage_embeddings.py:188-227 | the loop yields the merged tables, keeps rows under their own keys, appends the new ids, and counts new celebrities, updated ones (all existing ones, in sync mode only) and new images exactly |
| ManageEmbeddings.SyncManager.constructor | scripts/manage_embeddings.py:31-41 | a new manager keeps its mode and starts with no fetched data and empty local tables |
| ManageEmbeddings.Fetched | scripts/manage_embeddings.py:110-117 | a document's name defaults to "" and its expression to "neutral" when missing; the other fields, and the embedding, are kept as they are, missing ones as `None` |
| ManageEmbeddings.SyncManager.FetchFromFirebase | scripts/manage_embeddings.py:87-131 | fetching fails exactly when there are no documents; otherwise every document is stored under its id, later ones overwriting earlier ones, and the local tables are untouched |
| ManageEmbeddings.SyncManager.LoadLocalFiles | scripts/manage_embeddings.py:139-180 | each existing CSV is loaded row by row into its table and a missing one leaves its table as it was |
| ManageEmbeddings.SyncManager.MergeData | scripts/manage_embeddings.py:184-237 | the tables become the merged ones, each id's and key's row is as the merge rules say, the local ids keep their order with the new ones appended, and the counts are exact |
| ManageEmbeddings.SyncManager.SaveEmbeddings | scripts/manage_embeddings.py:298-322 | the saved arrays are the sorted ids and their embedding rows, and the missing count is the number of ids without an embedding |
| ManageEmbeddings.SyncManager.SaveFiles | scripts/manage_embeddings.py:241-261 | saving writes the two CSVs and the arrays, and succeeds exactly when the rows stack into a matrix |
| ManageEmbeddings.SyncManager.Run | scripts/manage_embeddings.py:377-414 | as written: the steps of Steps, after which a run whose steps all pass raises the summary's AttributeError; it never returns true, and `main` exits with status 1 |
| ManageEmbeddings.SyncManager.Steps | scripts/manage_embeddings.py:377-409 | nothing is saved without a connection or documents; otherwise the data is fetched, loaded in merge and sync modes, merged and saved, and the steps pass exactly when the arrays are saved and have 512 columns |
| ManageEmbeddings.ExitCode | scripts/manage_embeddings.py:439-442 | the exit status is 0 exactly when `run` returned true, else 1 |
| VerifyArtifacts.FileFault | scripts/verify_celeb_artifacts.py:17-21 | no file fault is reported exactly when all remaining files exist and are non-empty |
| VerifyArtifacts.FileFaultFirst | scripts/verify_celeb_artifacts.py:17-21 | a reported file fault is that of the first bad file in the fixed order: "missing" when it is absent, "0-byte" otherwise |
| VerifyArtifacts.NameBlankDiffers | scripts/verify_celeb_artifacts.py:36 | the script's blank-name test agrees with the intended one on text cells and differs only on an empty (NA) cell, which it lets through |
| VerifyArtifacts.AnyBlank | scripts/verify_celeb_artifacts.py:36 | a column has a blank cell exactly when some cell is blank |
| VerifyArtifacts.NotIn | scripts/verify_celeb_artifacts.py:40 | the unknown ids are exactly the listed ids absent from the known set |
| VerifyArtifacts.Sample | scripts/verify_celeb_artifacts.py:42 | the sample is the first ten unknown ids, or all of them when there are fewer |
| VerifyArtifacts.ItemsOf | scripts/verify_celeb_artifacts.py:46 | the items of the expression index are its key/value pairs, one per key |
| VerifyArtifacts.ItemsFrom | scripts/verify_celeb_artifacts.py:46 | every item pairs a key with its own value, one per key |
| VerifyArtifacts.Members | scripts/verify_celeb_artifacts.py:47 | a list is iterated over its items, and null, booleans and numbers cannot be iterated |
| VerifyArtifacts.IntOf | scripts/verify_celeb_artifacts.py:48 | an integer converts to itself, and null, lists and objects do not convert |
| VerifyArtifacts.IndexFault | scripts/verify_celeb_artifacts.py:47-49 | a label's indices pass exactly when each converts to an integer in 0..N-1, and a failure names an offending index |
| VerifyArtifacts.LabelFault | scripts/verify_celeb_artifacts.py:46-49 | the index passes exactly when every label's value is iterable and all its indices are in range |
| VerifyArtifacts.FailMessage | scripts/verify_celeb_artifacts.py:19-37 | every fixed failure message starts with "[FAIL] " |
| VerifyArtifacts.IndexedPassedIff | scripts/verify_celeb_artifacts.py:44-52 | the expression-index stage passes with (N, D) exactly when the index is an object whose every label is in range for N rows, and the embeddings are 2-D of shape (N, D) |
| VerifyArtifacts.TabledPassedIff | scripts/verify_celeb_artifacts.py:29-52 | the table stage passes exactly when both columns exist, no name is blank, every array id is a known celebrity id, and the index stage passes |
| VerifyArtifacts.PassedIff | scripts/verify_celeb_artifacts.py:17-52 | the whole check passes with (N, D) exactly when all five files exist and are non-empty, the ids load without pickling, the embeddings are (N, D) with N ids, both columns exist, no name is blank, every id is known, and the expression index is in range |
| VerifyArtifacts.FilesFirst | scripts/verify_celeb_artifacts.py:17-21 | a bad file makes the check fail on files, and on exactly that file when every earlier one is fine |
| VerifyArtifacts.PickledIdsCrash | scripts/verify_celeb_artifacts.py:24 | an ids array stored as Python objects cannot be loaded without pickling, so the check stops there |
| VerifyArtifacts.LengthMismatchJustified | scripts/verify_celeb_artifacts.py:26-27 | a length-mismatch failure reports the two counts, and they differ |
| VerifyArtifacts.TabledFailures | scripts/verify_celeb_artifacts.py:29-49 | after loading, only table and index failures remain, and index failures come from the index stage |
| VerifyArtifacts.UnknownIdsJustified | scripts/verify_celeb_artifacts.py:39-42 | an unknown-ids failure reports the count of unknown ids and a sample, each of which really is unknown |
| VerifyArtifacts.IndexFailureJustified | scripts/verify_celeb_artifacts.py:47-49 | an index failure names an index that does not convert to an integer, or one outside 0..N-1 |
| VerifyArtifacts.LabelFaultSound | scripts/verify_celeb_artifacts.py:46-49 | an index fault is a non-iterable value, an index that is not an integer, or an index out of range for N |
| VerifyArtifacts.EmptyNameSlipsThrough | scripts/verify_celeb_artifacts.py:36-37 | when the script's test passes a table with an empty name cell, the intended test reports empty names |
| VerifyArtifacts.EmptyNameWitness | scripts/verify_celeb_artifacts.py:36-37 | a concrete artifact set with one empty name passes the script as written and fails the intended check |
| VerifyArtifacts.CheckedWith | scripts/verify_celeb_artifacts.py:17-52 | the script's checks in order for a given name test; a run that passes had every file present and non-empty, string ids as many as the embedding rows, a name column with no blank cell and an object as the expression index |
| VerifyArtifacts.CheckedAsWritten | scripts/verify_celeb_artifacts.py:17-52 | the script as written; on a name column with no empty cell its outcome is that of the intended run |
| VerifyArtifacts.Checked | scripts/verify_celeb_artifacts.py:17-52 | the intended run; one that passes has a non-blank text name in every row |
| VerifyArtifacts.BlankTestsAgree | scripts/verify_celeb_artifacts.py:36 | without empty name cells the script's and the intended blank test give the same run |
| VerifyArtifacts.Verify | scripts/verify_celeb_artifacts.py:17-52 | the imperative check returns the outcome CheckedWith gives for its name test: with the script's own test, CheckedAsWritten; with the intended one, Checked |
| VerifyArtifacts.ExprLoop | scripts/verify_celeb_artifacts.py:46-49 | the nested index loop returns the fault that LabelFault gives |

## Left out

- Image statistics (Laplacian variance, mean grayscale in `quality_gate.py`): OpenCV calls; blur and brightness are real inputs.
- The cosine and euclidean kernels (L2 normalisation, dot products) in `similarity.py`: floating-point numerics; they are parameters (`Similarity.Kernels`), and only the conversion of distances to similarities is modelled.
- `sigmoid_scale` and `power_scale` in `score_scale.py`: transcendental functions; the logistic and power curves are parameters (`ScoreScale.Maths`), so only their clamping and spreading is modelled.
- `align_face` and `normalize_face` in `face_crop.py`: OpenCV affine warps and pixel loops; the crop result records which window or alignment was chosen, not pixels.
- Base64 decoding, `cv2.imdecode`, `cv2.resize`, `cvtColor` and `image_to_base64` in `decode.py`: library calls, supplied by `Decode.Codec`; only header parsing, limits, resize dimensions and error wrapping are modelled.
- PyNum.RoundHalfEven: rounds exact reals half to even, not binary doubles, so a value such as 2.675 (stored as 2.67499…) rounds differently than in Python; the same holds for every member that rounds (`ScoreScale`, `WsApi.ItemFor`, `PyNum.Round2Hundredths`).
- Floating-point overflow, NaN and infinities, and 32-bit `float32` storage of embeddings: values are unbounded reals.
- MediaPipe face landmarking, DeepFace embedding and model download: foreign libraries and network; the detector and embedder are parameters of `Pipeline.Services`.
- The async WebSocket handler body (`backend/app/api/ws.py:77-213`) beyond result-item and result-message assembly, FastAPI wiring and the send-file client: network I/O and asynchrony.
- Firestore access and the result repository (a no-op that returns True): persistence; fetched documents are an input of `ManageEmbeddings.SyncManager.FetchFromFirebase`.
- Logging, diagnostics, the `trace` decorator and the `timeit`/`measure_time` decorators: side effects only; `Timer` and `StepTimer` themselves are modelled.
- `lru_cache` accessors, `__new__` singletons and global instances: one object per class is modelled, with its load-once flag.
- Clock readings and the random hex of generated ids: passed in as parameters.
- CSV and JSON syntax, file-system errors and `np.load`: files arrive already parsed.
- CelebIndex.TableOf: an `expression_to_celebs` value whose entries are not lists of strings is refused and leaves the index unloaded, where Python would iterate a string's characters or a dict's keys; `expression_to_indices` is kept as it is (`CelebIndex.IndicesOf`).
- Loader.CelebDataLoader.LoadEmbeddings: ids are taken as strings; `str()` of numeric ids in an array is not modelled.
- VerifyArtifacts.FailMessage: covers the messages with fixed text; the unknown-ids and index messages embed Python's `repr` of lists and values, which is not modelled.
- VerifyArtifacts.Checked: pandas type inference is not modelled (a `celeb_id` column of digits read as integers, duplicate column names, short rows); and `ids` arrays that are 0-dimensional or 2-dimensional are not modelled.
- ManageEmbeddings.SyncManager.Run: the progress printing other than the failing summary line, the Firebase connection attempt (the `connected` parameter) and `validate`'s line counting of the written CSVs are not modelled; `validate` is reduced to its embedding-width check. `--mode validate` runs every step, as the code does, although its help text describes a validation only.
- Pipeline.AnalyzePipeline.Analyze: the shared loader and index are taken as they are; the `load()` that `get_celeb_loader` and `get_expression_index` run on first use (before `analyze`'s `try`, so its failure escapes unwrapped and no progress event is sent) is not part of this call; `Loader.CelebDataLoader.Load` and `CelebIndex.ExpressionIndex.Load` model it separately.
- Pipeline.AnalyzePipeline.EnsureDataLoaded: as for `Analyze`, the getters' first-use `load()` and its failures are not modelled here.
- Paths.Join: joins with one "/" as text; `pathlib` normalisation (repeated or trailing separators, "." components, an absolute component replacing the prefix) is not modelled, so the layout holds for relative, normalised components.
- Paths.Layout: built on `Paths.Join`, with the same limits.
- FileLayout (`Paths.FileLayout`): built on `Paths.Join`, with the same limits; an expression or id with a separator or an absolute path is not normalised.
- WsMessages.LaxInt: a numeric string is read with the syntax of Python's `int()`; where pydantic-core's own string parser differs (a string such as "1.0"), the model follows `int()`.
- ManageEmbeddings.Fetched: a Firestore field stored explicitly as null is read as a missing field, so it takes the default ("" for `name`, "neutral" for `expression`); Python's `data.get` keeps the stored `None`, which leads to a `(celeb_id, None)` image key. Sorting that key next to a string expression of the same id raises TypeError, and `save_files` then returns False after writing celebs.csv and only the header of images.csv. This path is not modelled.
- ScoreScale.CurveOf: a keyword passed explicitly as `None` is treated as absent; in Python `kwargs.get` returns `None` and the scaling fails.
- Text.Lower: lowers ASCII letters only; this is exact wherever it is compared with the ASCII label and flag sets of the source, but text shown in a message keeps its non-ASCII capitals.
- Decode.TypedHeader: the unsupported-format error names the format lowered by `Text.Lower` (ASCII only), where Python's `.lower()` is Unicode-wide; for a header such as "data:image/JPÉG;base64,…" the message text differs ("jpÉg" against "jpég"), while the accept/refuse decision is the same.
- Loader.FromCsvRow: a parsed CSV row maps each column to a string; `csv.DictReader`'s short rows, whose missing trailing cells are `None` (so `row.get("name", "")` gives `None` and the celebrity's name is `None`), and its overlong rows (extra cells under the key `None`) are not modelled.
- ManageEmbeddings.Lift: the same holds for the rows the sync script reads: a short row's `None` cells are not modelled.
- DebugTools.Brief: the `<brief_error …>` fallback, for a value whose inspection itself raises, is not modelled; an array's min, max and NaN flag are inputs, not computed.
- Scripts that only write files or probe the environment (`build_celeb_embeddings.py`, `build_expression_index.py`, `setup_check.py`, `smoke_celeb_loader.py`): outside the core.
- `backend/tests/test_ws_contract.py`: targets message types that `ws_messages.py` no longer defines, so no property is taken from it.

## Findings

| source | as written | input that shows it | evidently intended | confidence | as-written member | corrected member |
|---|---|---|---|---|---|---|
| scripts/verify_celeb_artifacts.py:36-37 | an empty `name` cell is read by pandas as NaN, and `astype(str)` turns it into "nan", which is not blank after stripping, so the empty-name check never fires for it | celebs.csv with one row `x,` (id "x", empty name), one 512-wide embedding, ids ["x"] and an empty index object passes (`VerifyArtifacts.EmptyNameWitness`; in general `VerifyArtifacts.EmptyNameSlipsThrough`) | a missing name counts as blank and the check fails with "celebs.csv has empty 'name' values" | not executed | VerifyArtifacts.CheckedAsWritten | VerifyArtifacts.Checked |
| scripts/manage_embeddings.py:412 | the summary prints `celeb_paths.data_root`, but `CelebPaths` has no `data_root`, so an `AttributeError` ends every run whose steps pass; `run` never returns true and the script exits with status 1 after a traceback | any sync whose fetched embeddings are all 512 wide and whose table is non-empty (`ManageEmbeddings.FullWidthValidates`) | `run` returns true and `main` exits with status 0 | not executed | ManageEmbeddings.SyncManager.Run | ManageEmbeddings.SyncManager.Steps |
