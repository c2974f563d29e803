# SIFT fingerprint processor: decision logic

This project models the decision logic of the SIFT fingerprint processor
(`python-scripts/sift_processor.py`), the helper that extracts keypoint
templates from fingerprint images and compares two templates for the
biometric login. The vision library calls it wraps (image decoding,
preprocessing, SIFT detection, the FLANN nearest-neighbour matcher) are opaque
inputs. What is modelled is the logic around them:

- `SiftMatching` (`matching.dfy`) is the comparison. It holds Lowe's ratio-test
  loop over the k = 2 candidate pairs the matcher returns, with a pass
  threshold of 7/10. It also holds the similarity score: good matches divided
  by the size of the smaller template, or 0 when either template is empty. And
  it builds the result record with its counts.
- `SiftExtraction` (`extraction.dfy`) is the extraction. It holds the two
  failure gates: an image that does not decode, and a detection with no
  descriptors or no keypoints. It holds the serialization loop, which copies
  each keypoint field by field in order, and it builds the success or failure
  record.

Distances and keypoint fields are `real`s. This abstracts the float32 values
the library computes. What the matcher returned is the value
`knn: MatcherOutcome`, because its randomised approximate search need not be a
function of the descriptors. The
detector, which also stands for the preprocessing before it, is the parameter
`detect: Img -> DetectOutcome`. The decoder's result is the value
`decoded: DecodeOutcome<Img>`. An exception raised inside one of these calls
is the `...Raised(message)` case of its outcome. The catch-all handler of each
operation turns that case into a failure record that carries the message.

The source does not bound the similarity score by 1. The score is normalised
by the smaller template, but the matcher returns one pair for every descriptor
of the first template. So when the first template is the larger one, the
good-match count can exceed the divisor. `SimilarityCanExceedOne` gives three
passing pairs, one per descriptor of a three-descriptor template, against a
two-descriptor template, which scores 3/2. `CompareScoresAboveOne` gives the
same result through the comparison itself.
`SimilarityAtMostOne` states the condition under which the bound does hold.

## Model

| member | source | states |
|---|---|---|
| `SiftMatching.PassesRatioTest` | python-scripts/sift_processor.py:142-145 | a pair passes only when it has exactly two candidates, and then exactly when the first is closer than 7/10 of the second (strict); for a non-negative nearest distance a passing pair's nearest candidate is strictly nearer, so a tie never passes |
| `SiftMatching.FilterGoodMatches` | python-scripts/sift_processor.py:140-146 | the loop returns exactly `GoodMatches(pairs)`: the nearest candidate of each pair that passes the ratio test, in input order |
| `SiftMatching.GoodMatches` | python-scripts/sift_processor.py:140-146 | there are never more good matches than pairs returned by the matcher |
| `SiftMatching.GoodIndicesSound` | python-scripts/sift_processor.py:141-146 | every selected position is a pair with exactly two candidates whose nearest distance is below 7/10 of the second |
| `SiftMatching.GoodIndicesIncreasing` | python-scripts/sift_processor.py:141-146 | the selected positions increase strictly, so the input order is kept |
| `SiftMatching.GoodIndicesComplete` | python-scripts/sift_processor.py:141-146 | every pair that passes the ratio test is selected |
| `SiftMatching.GoodMatchesAtIndices` | python-scripts/sift_processor.py:143-146 | the k-th good match is the first (nearest) candidate of the pair at the k-th selected position |
| `SiftMatching.GoodMatchesAreSelectedPairs` | python-scripts/sift_processor.py:140-146 | the good-match list is the order-preserving subsequence of first candidates of exactly those pairs that have two candidates and pass `best < 0.7 * second` (both directions) |
| `SiftMatching.GoodMatchesAppend` | python-scripts/sift_processor.py:141-146 | the filter works pair by pair: filtering a concatenation gives the concatenation of the filtered parts |
| `SiftMatching.ShortPairIgnored` | python-scripts/sift_processor.py:142 | a pair with other than two candidates is never counted, whatever its distances: inserting it anywhere leaves the result unchanged |
| `SiftMatching.MinFeatures` | python-scripts/sift_processor.py:150 | the normaliser is one of the two template sizes and is no larger than either |
| `SiftMatching.Similarity` | python-scripts/sift_processor.py:150-155 | the score is 0 when either template is empty and never negative; otherwise score × min size = good matches, the score is 0 exactly when there are no good matches, and it is at most 1 exactly when good matches ≤ the smaller size |
| `SiftMatching.SimilarityMonotone` | python-scripts/sift_processor.py:155 | the score does not decrease as the good-match count grows |
| `SiftMatching.SimilarityAtMostOne` | python-scripts/sift_processor.py:137-155 | with at most one pair per first-template descriptor and the first template no larger than the second, the score is at most 1 |
| `SiftMatching.SimilarityCanExceedOne` | python-scripts/sift_processor.py:150-155 | three passing pairs, for query descriptors 0, 1 and 2, against a two-descriptor template give 3 good matches and score 3/2, so no general bound of 1 holds |
| `SiftMatching.CompareScoresAboveOne` | python-scripts/sift_processor.py:150-164 | comparing three descriptors against two, with three passing pairs, reports 3 good matches out of 3 and similarity 3/2 |
| `SiftMatching.CompareSiftFeatures` | python-scripts/sift_processor.py:114-170 | a matcher exception gives a failure record carrying its message; otherwise the record reports the good-match count of the ratio test, total matches = number of pairs, both template sizes unchanged and the score `Similarity(good, n1, n2)`; good ≤ total, score ≥ 0, and score 0 when a template is empty |
| `SiftExtraction.SerializeKeyPoint` | python-scripts/sift_processor.py:89-96 | each serialized record copies pt as a two-element list, plus size, angle, response, octave and class_id; reading it back gives the same keypoint |
| `SiftExtraction.DeserializeInvertsSerialize` | python-scripts/sift_processor.py:89-96 | a record reads back as a keypoint exactly when it is that keypoint's serialization |
| `SiftExtraction.SerializeKeyPoints` | python-scripts/sift_processor.py:87-96 | the loop makes one record per keypoint, and the record at index i is the serialization of keypoint i |
| `SiftExtraction.SerializedKeyPointsRoundTrip` | python-scripts/sift_processor.py:87-96 | a list serialized entry by entry reads back as the original keypoint list, complete and in order |
| `SiftExtraction.ExtractSiftFeatures` | python-scripts/sift_processor.py:48-112 | an undecoded image, or no descriptors or zero keypoints, gives a failure with that reason and no keypoints; a library exception gives a failure carrying its message; success holds exactly when the image decodes, detection returns, descriptors exist and there is at least one keypoint; on success num_features = number of keypoints = number of serialized entries > 0, the descriptors are passed through, and entry i serializes keypoint i |

## Left out

- Image preprocessing (python-scripts/sift_processor.py:21-46) is left out. It is pixel arithmetic inside the vision library. It appears only as part of the opaque `detect` parameter.
- SIFT detection and descriptor computation (python-scripts/sift_processor.py:73-81) are left out. These are approximate float library calls. Their settings (500 features, contrast 0.04, edge 10, sigma 1.6) are not modelled.
- The FLANN k-d-tree matcher (python-scripts/sift_processor.py:127-137) is left out. It is an approximate library search. What it returned is the opaque `knn` value, so the model does not know how many pairs it returns or how long each is, and nothing about comparing a template with itself can be proved.
- Float arithmetic is not modelled. Distances, keypoint fields and the score are reals, so float32 storage, `float()` and `int()` conversions and rounding in the division are abstracted away.
- Exception texts are not modelled. The two messages the extraction raises are the error constants `ImageNotDecoded` and `NoFeaturesDetected`. A library exception keeps its message only as an opaque string.
- Malformed template records are not modelled separately. A missing `descriptors` key or descriptor rows that do not form a matrix count as the matcher raising.
- The command-line entry point `main` (python-scripts/sift_processor.py:172-206) is left out. It handles argv, base64 and JSON decoding of stdin, JSON printing to stdout, and the exit status, which are all I/O.
- The missing-library guard (python-scripts/sift_processor.py:11-19) is left out because it is about the environment.
- `SiftExtraction.DeserializeKeyPoint`, `SiftExtraction.DeserializeKeyPoints` and `SiftMatching.GoodIndices` have no counterpart in the modelled source file. The first two are reference inverses used to state that serialization loses nothing. `GoodIndices` is the reference list of passing positions used to state that the good matches are an order-preserving selection.
- Enrollment, login, token and session handling do not occur in python-scripts/sift_processor.py, so they are not part of this model.
