# Face-recognition backend: scoring, descriptor cache, public ids, API errors

A Dafny model of four parts of the face-recognition backend, with proofs of what each part promises.

- **Similarity** (`similarity.dfy`) models `calculateFaceSimilarity`.
  - It compares two face annotations on ten landmark positions and on six features: four likelihoods and two confidences.
  - A landmark present in both faces scores `1 / (1 + e^(d - 10))`, where `d` is the distance between the two points.
  - A likelihood scores `1 - abs(i1 - i2) / 5` on the six-level scale, and a confidence scores `1 - abs(c1 - c2)`.
  - The landmark mean is weighted 0.7 and the feature mean 0.3. Only the groups that compared are counted, the sum is renormalised by the weight used, and the score is 0 when nothing compares.
  - The two `forEach` loops are methods, each proved equal to recursive specification functions over the key list (`LandmarkScore`, `ValidLandmarks`, `FeatureScore`, `ValidFeatures`). The whole scorer is a method proved equal to the non-recursive function `Similarity`, which combines those sums. The lemmas are stated about these functions.
- **CompareFaces** (`compare_faces.dfy`) models the process-wide descriptor cache behind `compareFaces`.
  - The cache is a class holding a `map` from user id to descriptor.
  - `getFaceDescriptor` reads and writes the cache. The hourly callback clears it.
  - The verdict is `matched` exactly when the Euclidean distance is at most 0.6. When either image shows no face, the result is the "no face" object instead.
  - Each method is tied to a function (`Fetch`, `Compare`) whose contract states the caching rules.
  - The class invariant `Valid` says that no key is the empty string. An empty id is falsy in JavaScript, so the source never stores it; the invariant records that observation, and no other contract depends on it.
- **ImageUtils** (`image_utils.dfy`) models `extractCloudinaryPublicId` from the pathname onward. The JavaScript `indexOf`, `lastIndexOf`, `split` and `join` it uses are in `sequences.dfy`, together with the split/join round trips.
- **ApiErrors** (`api_error.dfy`) models the `ApiError` record, with its defaults, and its `toJson` projection.
  - The record is built once and never changed afterwards, so it is a datatype.
  - `Create` is a function that stands for the constructor.

Foreign calls are parameters:

- `Math.sqrt` and `Math.exp` are passed in. The predicates `IsSqrt` and `IsExp` state the only properties the proofs use: `sqrt` is 0 at 0 and positive above it; `exp` is positive and non-decreasing.
- The face detector is a function from an image to a descriptor, to "no face", or to a thrown error.
- `faceapi.euclideanDistance` is a function of two descriptors.
- The WHATWG URL parser's `pathname` is a function that may fail. A failure means the `URL` constructor threw, and the source maps that to `null`.

## Model

| member | source | states |
|---|---|---|
| `Similarity.CalculateFaceSimilarity` | src/helpers/calculateSimilarity.js:8-100 | The score is the specification `Similarity`: the mean of each group that compared, weighted 0.7 and 0.3, divided by the weight used; 0 when no group compared. |
| `Similarity.AccumulateLandmarks` | src/helpers/calculateSimilarity.js:41-49 | The landmark loop's sum and count equal `LandmarkScore` and `ValidLandmarks` over the ten keys in source order. Only keys present in both faces count. |
| `Similarity.AccumulateFeatures` | src/helpers/calculateSimilarity.js:62-85 | The feature loop's sum and count equal `FeatureScore` and `ValidFeatures` over the six keys. |
| `Similarity.CompareFeature` | src/helpers/calculateSimilarity.js:63-84 | One key's term is the specification `FeatureTerm`. It is None when the key is missing from either face, or when a likelihood is not one of the six listed values. |
| `Similarity.LikelihoodTerm` | src/helpers/calculateSimilarity.js:70-76 | `1 - abs(i1 - i2) / 5` lies in [0, 1] and equals 1 exactly when the two ordinals are equal. |
| `Similarity.DistanceIsMetricLike` | src/helpers/calculateSimilarity.js:108-113 | `calculateDistance` is non-negative and symmetric, and it is 0 on equal points. |
| `Similarity.Distance` | src/helpers/calculateSimilarity.js:108-113 | `calculateDistance` is non-negative, and it is 0 on equal points, for any `sqrt` meeting `IsSqrt`. |
| `Similarity.LandmarkTerm` | src/helpers/calculateSimilarity.js:46 | Each landmark term `1 / (1 + e^(d - 10))` lies strictly between 0 and 1, for any `exp` meeting `IsExp`. |
| `Similarity.LandmarkTermAntitone` | src/helpers/calculateSimilarity.js:44-46 | A larger distance never gives a larger landmark term. |
| `Similarity.LandmarkScoreBounds` | src/helpers/calculateSimilarity.js:41-49 | A landmark sum over `n > 0` counted keys lies strictly between 0 and `n`. With no counted key it is 0. |
| `Similarity.NoCommonLandmark` | src/helpers/calculateSimilarity.js:41-42 | The landmark count is 0 exactly when no key is present in both faces. |
| `Similarity.NoComparableFeature` | src/helpers/calculateSimilarity.js:62-84 | The feature count is 0 exactly when no feature key compares. |
| `Similarity.NothingComparableScoresZero` | src/helpers/calculateSimilarity.js:93-96 | With no landmark shared and no feature that compares, the score is exactly 0. |
| `Similarity.LandmarkAverageBounds` | src/helpers/calculateSimilarity.js:51-54 | When some landmark compares, the landmark mean lies strictly in (0, 1). |
| `Similarity.LikelihoodFeature` | src/helpers/calculateSimilarity.js:65-76 | A likelihood counts exactly when both faces carry one of the six listed values. Its term lies in [0, 1] and is 1 exactly when the two strings are equal. |
| `Similarity.FeatureTermBounds` | src/helpers/calculateSimilarity.js:78-82 | With confidences in [0, 1], every feature term lies in [0, 1]. |
| `Similarity.FeatureScoreBounds` | src/helpers/calculateSimilarity.js:62-85 | With confidences in [0, 1], a feature sum lies between 0 and its count. |
| `Similarity.FeatureAverageBounds` | src/helpers/calculateSimilarity.js:87-90 | With confidences in [0, 1], the feature mean lies in [0, 1]. |
| `Similarity.SimilarityCombination` | src/helpers/calculateSimilarity.js:51-99 | Landmarks alone give the landmark mean. Features alone give the feature mean. Both give `0.7 L + 0.3 F`. |
| `Similarity.SimilarityInUnitInterval` | src/helpers/calculateSimilarity.js:6-99 | With confidences in [0, 1], the score lies in [0, 1], as the doc comment promises. |
| `Similarity.LandmarkSumsSymmetric` | src/helpers/calculateSimilarity.js:41-49 | Swapping the faces changes neither the landmark sum nor the landmark count. |
| `Similarity.FeatureTermSymmetric` | src/helpers/calculateSimilarity.js:67-80 | Swapping the faces leaves each feature term unchanged. |
| `Similarity.FeatureSumsSymmetric` | src/helpers/calculateSimilarity.js:62-85 | Swapping the faces changes neither the feature sum nor the feature count. |
| `Similarity.SimilaritySymmetric` | src/helpers/calculateSimilarity.js:8-100 | The score is symmetric in its two faces. |
| `Similarity.MovedLandmarkSums` | src/helpers/calculateSimilarity.js:41-49 | Moving one shared landmark of the second face farther away keeps the landmark count and never raises the landmark sum. |
| `Similarity.FeatureSumsIgnoreLandmarks` | src/helpers/calculateSimilarity.js:62-85 | The feature sum and count do not depend on the landmarks. |
| `Similarity.FartherLandmarkNeverIncreases` | src/helpers/calculateSimilarity.js:44-99 | Moving one shared landmark farther apart, with everything else fixed, never increases the score. |
| `Similarity.SelfLandmarkSums` | src/helpers/calculateSimilarity.js:41-49 | A face compared with itself scores the distance-0 term on every present landmark. |
| `Similarity.SelfFeatureSums` | src/helpers/calculateSimilarity.js:62-85 | A face compared with itself scores 1 on every feature that compares. |
| `Similarity.SelfSimilarity` | src/helpers/calculateSimilarity.js:51-91 | A face compared with itself has landmark mean `1 / (1 + e^-10)` and feature mean 1. |
| `Sequences.IndexOf` | src/utils/imageUtils.js:91 | `findIndex` / `indexOf` give the first position holding the value, or -1 exactly when the value is absent. |
| `Sequences.LastIndexOf` | src/utils/imageUtils.js:103 | `lastIndexOf` gives the last position holding the value, or -1 exactly when it is absent. |
| `Sequences.Split` | src/utils/imageUtils.js:89 | `split('/')` gives at least one part, and no part contains the separator. |
| `Sequences.Join` | src/utils/imageUtils.js:100 | `join('/')` of no parts is the empty string, and the join starts with the first part. Of separator-free parts, the join contains the separator exactly when there are at least two parts. |
| `Sequences.JoinSplit` | src/utils/imageUtils.js:89-100 | Joining the parts of a split, with the same separator, gives back the string. |
| `Sequences.SplitJoin` | src/utils/imageUtils.js:89-100 | Splitting a join of separator-free parts gives back the parts. |
| `Sequences.SplitNoSeparator` | src/utils/imageUtils.js:89 | A string without the separator splits into itself alone. |
| `Sequences.SplitAround` | src/utils/imageUtils.js:89 | A separator splits the string into what precedes it and the split of what follows it. |
| `ImageUtils.StartIndex` | src/utils/imageUtils.js:94-97 | The start is `uploadIndex + 2` when the segment after `upload` is non-empty and starts with `v`, and `uploadIndex + 1` otherwise. |
| `ImageUtils.StripExtension` | src/utils/imageUtils.js:102-104 | The id is cut just before the last `.`, so the result is a prefix with no cut when there is no dot. |
| `ImageUtils.PublicIdFromSegments` | src/utils/imageUtils.js:91-106 | The result is null exactly when no segment is `upload`. |
| `ImageUtils.PublicIdFromPathname` | src/utils/imageUtils.js:89-106 | The public id of a pathname is null exactly when no `/`-separated segment of it is `upload`. |
| `ImageUtils.ExtractCloudinaryPublicId` | src/utils/imageUtils.js:84-110 | An absent or empty URL gives null, and so does one that fails to parse. Otherwise the result is the public id of its pathname. |
| `ImageUtils.PublicIdOfFirstUpload` | src/utils/imageUtils.js:91-104 | Only the first `upload` segment counts. A following version segment is dropped. The rest is joined with `/` and cut at its last dot. |
| `ImageUtils.VersionSegmentSkipped` | src/utils/imageUtils.js:94-97 | A version segment right after `upload` never appears in the id. |
| `ImageUtils.UploadLastGivesEmptyId` | src/utils/imageUtils.js:99-100 | When `upload` is the last segment, the result is the empty string, not null. |
| `ImageUtils.PublicIdOfPathname` | src/utils/imageUtils.js:89-104 | The first-upload statement also holds on the pathname string built from `/`-free segments. |
| `ImageUtils.NoUploadSegmentNoId` | src/utils/imageUtils.js:91-92 | A pathname with no `upload` segment yields null. |
| `CompareFaces.IsCacheKey` | src/utils/compareFaces.js:31-53 | The `cacheKey &&` test: the cache is used only for a present, non-empty id. |
| `CompareFaces.FromDetection` | src/utils/compareFaces.js:46-57 | A detector error is rethrown as that same error. No face gives null. A face gives its descriptor. |
| `CompareFaces.Fetch` | src/utils/compareFaces.js:29-58 | A hit returns the cached descriptor and keeps the cache. A miss returns the detector's result. A miss under a truthy key that detects a face stores exactly that key ↦ descriptor. Without a truthy key the cache is unchanged. Otherwise at most that key changes, to the returned descriptor. A failed detection stores nothing. Keys stay non-empty. |
| `CompareFaces.Verdict` | src/utils/compareFaces.js:70-88 | Either descriptor missing gives the "no face" object. Otherwise the distance is reported, the threshold is 0.6, and `matched` holds exactly when the distance is at most 0.6. |
| `CompareFaces.Compare` | src/utils/compareFaces.js:60-93 | Only the stored fetch changes the cache, so the upload is never cached. An error is rethrown unchanged: the stored fetch's error if it threw, otherwise the upload detector's error. Otherwise the result is the verdict on the two descriptors. |
| `CompareFaces.DescriptorCache.constructor` | src/utils/compareFaces.js:6 | The cache starts empty. |
| `CompareFaces.DescriptorCache.GetFaceDescriptor` | src/utils/compareFaces.js:29-58 | The returned descriptor and the new cache are those of `Fetch` on the old cache. Every key stays non-empty. |
| `CompareFaces.DescriptorCache.ClearIfNotEmpty` | src/utils/compareFaces.js:96-102 | After the periodic callback the cache is empty. |
| `CompareFaces.CompareFaces` | src/utils/compareFaces.js:60-93 | The result and the new cache are those of `Compare` on the old cache. |
| `CompareFaces.CacheHitSkipsDetection` | src/utils/compareFaces.js:31-34 | On a hit, neither the image nor the detector affects the result: detection is not run. |
| `CompareFaces.NoKeyIgnoresCache` | src/utils/compareFaces.js:31-55 | Without a truthy key the cache is not read: any two caches give the same descriptor. |
| `CompareFaces.StoredDescriptorReused` | src/utils/compareFaces.js:29-88 | After a comparison that reached a distance, the user's descriptor is cached and is the one that was compared. The next fetch for that user returns it, whatever image or detector is used. |
| `CompareFaces.SameDescriptorMatches` | src/utils/compareFaces.js:79-88 | When the stored image is not served from the cache, two images with the same descriptor match at distance 0 with threshold 0.6. |
| `CompareFaces.ClearedCacheDetectsAgain` | src/utils/compareFaces.js:96-102 | After a clear, the stored image goes through detection again. |
| `ApiErrors.Create` | src/utils/ApiError.js:2-20 | `success` is false and `data` is null. The status code is stored as given. The message defaults to "Something went wrong" and the errors to `[]`. The stack is the given one when non-empty, otherwise the captured trace. |
| `ApiErrors.ToJson` | src/utils/ApiError.js:21-28 | The JSON is an object with exactly the keys `success`, `status`, `message` and `errors`, holding the error's success flag, status code, message and errors; there is no `data` and no `stack` key. |
| `ApiErrors.CreatedToJson` | src/utils/ApiError.js:2-28 | A new error's JSON is `{success: false, status, message, errors}`, with the given status code and the message and errors or their defaults. |
| `ApiErrors.ToJsonInjective` | src/utils/ApiError.js:21-28 | Two errors with the same JSON agree on success, status code, message and errors. |

## Left out

- The attendance check-in/check-out ledger is not modelled because it is not implemented: the attendance controller holds only a placeholder for the face-match logic.
- The angle/bounds tolerance matcher is not modelled: the face-profile model is only a schema, with no code.
- Image loading and resizing (`prepareImage`), face-api detection and model loading are foreign ML and canvas libraries working in floating point. The detector is a parameter.
- `downloadImageFromUrl` and `cleanupTempFile` are filesystem and HTTPS I/O.
- The user controller, models, e-mail, upload middleware, routes and app wiring are database, crypto, SMTP and HTTP plumbing.
- IEEE floating point is not modelled: scores are exact reals.
- `Similarity.IsSqrt` and `Similarity.IsExp` state only the properties of `sqrt` and `exp` that the lemmas need.
- `Similarity.DistanceIsMetricLike`: does not state that distance 0 implies equal points, because that needs more of `Math.sqrt` than `IsSqrt` gives, and no score property uses it.
- `Similarity.CalculateFaceSimilarity`: the face maps hold only well-typed values. A JavaScript value of another type is not modelled, for example a non-string likelihood (which `indexOf` misses) or a `null` confidence (which arithmetic turns into 0).
- The scorer's `forEach` callbacks are the methods `AccumulateLandmarks`, `AccumulateFeatures` and `CompareFeature`, with a `for` loop in place of each `forEach`.
- The hourly `setInterval` is not modelled. `ClearIfNotEmpty` is one run of its callback.
- The cache-size log line of the callback is not modelled, nor is any other console output.
- `Promise.all`: the two descriptor fetches run one after the other, the stored image first. The upload never uses a key, so the resulting cache is the same in either order. When both fetches throw, the model reports the stored fetch's error, while the source reports whichever rejects first.
- `CompareFaces.CompareFaces`: `faceapi.euclideanDistance` is a parameter. Its own check on descriptor lengths is not modelled.
- `ApiErrors.Create`: the `Error` base class (`super(message)`, the `name` property) is not modelled. Arguments are strings, numbers and JSON values, so a `null` message is not modelled; JavaScript substitutes the default only for `undefined`.
- The exact text of a captured stack trace is a parameter.
- `ApiErrors.ToJson`: a JSON object is a map, so the order of its keys is not modelled.
