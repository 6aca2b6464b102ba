# TNM patient similarity: stage-to-cluster matching

A model of the patient-similarity page of the HealthAI dashboard
(`pages/similarity.py`). A clinician submits a federated clustering task,
retrieves its result — one centroid per cluster in TNM-ordinal space and one
survival profile per cluster — and then picks a T, N and M stage. The page
encodes the stage as ordinals, finds the nearest centroid and charts that
cluster's survival rates against a fixed day axis of 0, 30, …, 720.

Modules:

- `Staging` (`staging.dfy`): the staging scheme and the label-to-ordinal
  encoding (`np.where(...)[0][0]` looked up in `range(len(values))`).
- `Matching` (`matching.dfy`): squared Euclidean distance, `np.argmin` as the
  first minimum, the nearest centroid, and the proof that using squared
  distances picks the same cluster as Euclidean distances.
- `Profile` (`profile.dfy`): the `range(0, 730, 30)` day axis and the frame
  pairing each day with a survival rate.
- `Similarity` (`similarity.dfy`): the `survival_profile` callback as a total
  function whose errors are explicit `Fault` values, with lemmas about it;
  `Scenarios` holds a worked two-cluster example.
- `Page` (`page.dfy`): the page's global state (`task`, `centroids`,
  `profiles`) as a class whose methods are the two button callbacks and the
  profile callback. The remote service's answers are method parameters.

In these cases the model follows the code as written:

- A label that is not on its axis makes the source fail on an empty
  `np.where` result. The model reports `InvalidStage(axis)` and never
  reaches matching. `Encode` itself keeps membership as a precondition.
- The chart pairs the profile with a fixed 25-point day axis (days 0, 30, …,
  720), not with as many days as the profile has rates. A frame with columns of different lengths cannot
  be built, so a profile of any other length gives `ProfileLength`.
- Nothing checks that `profiles` is as long as `centroids`. The model fails
  with `MissingProfile` only when the matched index is past the end of
  `profiles`.

## Model

| member | source | states |
|---|---|---|
| Staging.Where | pages/similarity.py:216-222 | the hit list holds exactly the positions where the axis has the label, each in range, in strictly increasing order |
| Staging.Ordinals | pages/similarity.py:44-51 | the ordinal codes of an axis are as many as its labels and code i is i |
| Staging.Encode | pages/similarity.py:216-223 | for a label on the axis, the code is in range, the axis has the label at the code, and no earlier position has it (first occurrence) |
| Staging.WhereEmptyIffAbsent | pages/similarity.py:216-222 | the hit list is empty exactly when the label is not on the axis, the case where the `[0]` subscript fails |
| Staging.DecodeEncode | pages/similarity.py:216-223 | looking up the label at an encoded code gives the label back |
| Staging.EncodeDecode | pages/similarity.py:44-51 | on an axis without repeated labels, encoding the label at a position gives that position |
| Matching.SqDist | pages/similarity.py:227 | the squared distance is never negative and is zero from a point to itself |
| Matching.ArgMin | pages/similarity.py:228 | the index is in range, its entry is no larger than any entry, and every earlier entry is strictly larger |
| Matching.ArgMinCharacterised | pages/similarity.py:228 | an index is the argmin exactly when it is a first minimum, so the choice is unique and deterministic |
| Matching.ArgMinOrderInvariant | pages/similarity.py:227-228 | two lists whose entries compare the same way have the same argmin |
| Matching.SquareOrder | pages/similarity.py:227 | squaring preserves and reflects the order of non-negative distances |
| Matching.EuclideanArgMinAgrees | pages/similarity.py:227-228 | the argmin over Euclidean distances (non-negative square roots) equals the argmin over squared distances |
| Matching.Nearest | pages/similarity.py:226-228 | the matched cluster is a valid index, no centroid is closer to the query, and every earlier centroid is strictly farther |
| Matching.NearestIsEuclideanArgMin | pages/similarity.py:227-228 | `np.argmin` over the Euclidean distances to the centroids picks the same cluster as `Nearest` |
| Profile.RangeAt | pages/similarity.py:233 | element i of a range exists exactly when start + step·i is below stop, and then equals it |
| Profile.SurvivalDays | pages/similarity.py:233 | the day axis has 25 points and point i is day 30·i |
| Profile.Series | pages/similarity.py:231-234 | a frame exists exactly when the profile has 25 rates, and then row i pairs day 30·i with rate i |
| Profile.LastDay | pages/similarity.py:233 | the last row of a frame is day 720 |
| Similarity.Query | pages/similarity.py:216-226 | the query point has one coordinate per axis |
| Similarity.SurvivalProfile | pages/similarity.py:213-251 | the output is blank exactly when one of T, N, M is unselected or empty |
| Similarity.ChartIsNearestProfile | pages/similarity.py:213-234 | a chart comes only from a stage on the scheme and retrieved results, shows the nearest cluster with ties to the lowest index, and pairs day 30·i with that cluster's rate i for all 25 days |
| Similarity.InvalidStageBeforeMatching | pages/similarity.py:216-228 | a selected label off its axis gives `InvalidStage` whatever the centroids and profiles are |
| Similarity.NoMatchBeforeRetrieval | pages/similarity.py:227 | with `centroids` still `None`, a valid stage gives `NoResults` |
| Similarity.WellFormedResultsGiveChart | pages/similarity.py:213-234 | with three-coordinate centroids and one 25-rate profile per centroid, a valid stage always charts the nearest cluster's profile |
| Similarity.QueryDecodes | pages/similarity.py:216-226 | each coordinate of the query point is a whole number that indexes the selected label on its axis |
| Scenarios.CornerQueries | pages/similarity.py:216-226 | on two-label axes the lowest stage encodes to the origin and the highest to (1, 1, 1) |
| Scenarios.CornersNearest | pages/similarity.py:227-228 | each of two centroids at the origin and at (1, 1, 1) is nearest to itself |
| Scenarios.LowestStageMatchesFirstCorner | pages/similarity.py:213-234 | the lowest stage charts the profile of the cluster at the origin |
| Scenarios.HighestStageMatchesSecondCorner | pages/similarity.py:213-234 | the highest stage charts the profile of the cluster at (1, 1, 1) |
| Scenarios.EqualCentroidsPickFirst | pages/similarity.py:228 | of two clusters at the same place, the first is charted |
| Scenarios.UnknownStageRejected | pages/similarity.py:216 | a T label missing from the scheme gives `InvalidStage(T)` |
| Page.SimilarityPage.constructor | pages/similarity.py:30-34 | at start-up no task is recorded and `centroids` and `profiles` are `None` |
| Page.SimilarityPage.SendTask | pages/similarity.py:120-170 | a click records the handle the service returned and reports whether a task was created; no click changes nothing |
| Page.SimilarityPage.GetResults | pages/similarity.py:177-204 | `centroids` and `profiles` are replaced by the first result only when the task is complete, are otherwise kept, and completion is reported exactly when both are non-empty |
| Page.SimilarityPage.ShowSurvivalProfile | pages/similarity.py:207-251 | the callback's output is `SurvivalProfile` on the current state |
| Page.Session | pages/similarity.py:120-234 | submitting, retrieving a complete well-formed result and selecting a valid stage charts the nearest cluster |

## Left out

- Page layout and chart rendering (`pages/similarity.py:57-110`, `237-249`): a chart is modelled as the matched cluster and its rows, not as a figure.
- The vantage6 client (construction, `authenticate`, `setup_encryption`, `task.create`, `task.get`, `result.list`): network calls to an external library. Their answers are the parameters `created` and `info`.
- Loading `cdm.json` at import: file I/O. The three label lists are the `scheme` given to the constructor.
- The fixed task parameters (`k`, `epsilon`, `max_iter`, organisation ids, image name): configuration of remote code.
- Wall-clock timing (`start`, `finished_at`, the duration in minutes): clock readings, date parsing and float rounding.
- Page.SimilarityPage.GetResults: when the task is not complete but earlier results are present, the source fails on the unbound `duration`; the model reports `AnalysisCompleted` there.
- Page.SimilarityPage.GetResults: a result entry without a `centroids` or `profiles` key is not modelled; a `TaskResult` always has both fields (`None` stands for a null value).
- Page.SimilarityPage.GetResults: retrieving before any task was submitted fails in the source on the missing client and task; the model requires a recorded task instead.
- Similarity.SurvivalProfile: floating point is not modelled. Distances are exact reals and Euclidean distance is replaced by its square (`Matching.NearestIsEuclideanArgMin` shows the match is the same).
- Similarity.SurvivalProfile: any centroid without exactly three coordinates gives `DimensionMismatch`; numpy broadcasting of a one-coordinate centroid is not modelled.
- Similarity.SurvivalProfile: the Python exception types are collapsed into `Fault` values, and what the web framework does with a failed callback is not modelled.
- Matching.SqDist: does not state that the squared distance between different points is positive; the matching properties do not depend on it.
- Survival probabilities lying in [0, 1]: the source does not check this and the model does not assume it.
