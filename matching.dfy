/** Comparison of two SIFT templates: Lowe's ratio test over the two nearest
    candidates the matcher returns for every descriptor of the first template,
    and a similarity score normalised by the smaller of the two templates.
    What the nearest-neighbour matcher returned is an opaque input. */
module SiftMatching {

  import SiftExtraction

  /** One candidate match from the nearest-neighbour matcher: the descriptor
      index in the first (query) template, the index in the second (train)
      template, and their distance. The matcher computes the distance in
      float32; here it is a real. */
  datatype Candidate = Candidate(queryIdx: int, trainIdx: int, distance: real)

  /** The candidates found for one query descriptor, nearest first. A k = 2
      search yields at most two, but fewer when the second template is small. */
  type MatchPair = seq<Candidate>

  /** A SIFT descriptor as the extraction reports it; only the number of
      descriptors in a template matters to the scoring. */
  type Descriptor = SiftExtraction.Descriptor

  /** What the matcher call produces: the list of candidate pairs, one per
      query descriptor, or the message of the exception it raised (which also
      stands for a failure to convert the stored descriptors to a matrix). */
  datatype MatcherOutcome =
    | Matched(pairs: seq<MatchPair>)
    | MatcherRaised(message: string)

  /** The record the comparison reports. */
  datatype CompareResult =
    | Compared(similarity: real, goodMatches: nat, totalMatches: nat,
               featuresTemplate1: nat, featuresTemplate2: nat)
    | CompareFailed(error: string)

  /** The ratio of Lowe's test: the nearest candidate must be closer than
      seven tenths of the distance to the second nearest. */
  const LoweRatio: real := 7.0 / 10.0

  /** A pair is a good match when it has exactly two candidates and the
      nearest one passes the ratio test against the second. */
  predicate PassesRatioTest(pair: MatchPair)
    ensures PassesRatioTest(pair) ==> |pair| == 2
    ensures |pair| == 2 ==>
      (PassesRatioTest(pair) <==> 10.0 * pair[0].distance < 7.0 * pair[1].distance)
    ensures PassesRatioTest(pair) && 0.0 <= pair[0].distance ==>
      pair[0].distance < pair[1].distance
  {
    |pair| == 2 && pair[0].distance < LoweRatio * pair[1].distance
  }

  /** The good matches of `pairs`, in order: the nearest candidate of every
      pair that passes the ratio test. */
  function GoodMatches(pairs: seq<MatchPair>): (good: seq<Candidate>)
    ensures |good| <= |pairs|
  {
    if pairs == [] then []
    else
      var last := pairs[|pairs| - 1];
      GoodMatches(pairs[..|pairs| - 1]) + (if PassesRatioTest(last) then [last[0]] else [])
  }

  /** The positions, in increasing order, of the pairs that pass the ratio test. */
  function GoodIndices(pairs: seq<MatchPair>): seq<nat>
  {
    if pairs == [] then []
    else
      var n := |pairs| - 1;
      GoodIndices(pairs[..n]) + (if PassesRatioTest(pairs[n]) then [n] else [])
  }

  /** The ratio-test loop: walk the pairs in order and keep the nearest
      candidate of each pair that passes. */
  method FilterGoodMatches(pairs: seq<MatchPair>) returns (good: seq<Candidate>)
    ensures good == GoodMatches(pairs)
  {
    good := [];
    for i := 0 to |pairs|
      invariant good == GoodMatches(pairs[..i])
    {
      var pair := pairs[i];
      assert pairs[..i + 1][..i] == pairs[..i];
      if |pair| == 2 {
        var m, n := pair[0], pair[1];
        if m.distance < LoweRatio * n.distance {
          good := good + [m];
        }
      }
    }
    assert pairs[..|pairs|] == pairs;
  }

  /** Every recorded position is a pair that passes the ratio test. */
  lemma {:induction false} GoodIndicesSound(pairs: seq<MatchPair>)
    ensures forall k :: 0 <= k < |GoodIndices(pairs)| ==>
      GoodIndices(pairs)[k] < |pairs| && PassesRatioTest(pairs[GoodIndices(pairs)[k]])
  {
    if pairs != [] {
      var n := |pairs| - 1;
      GoodIndicesSound(pairs[..n]);
      var idx := GoodIndices(pairs);
      forall k | 0 <= k < |idx|
        ensures idx[k] < |pairs| && PassesRatioTest(pairs[idx[k]])
      {
        if k < |GoodIndices(pairs[..n])| {
          assert pairs[..n][idx[k]] == pairs[idx[k]];
        }
      }
    }
  }

  /** The recorded positions are strictly increasing: the input order is kept. */
  lemma {:induction false} GoodIndicesIncreasing(pairs: seq<MatchPair>)
    ensures forall k, l :: 0 <= k < l < |GoodIndices(pairs)| ==> GoodIndices(pairs)[k] < GoodIndices(pairs)[l]
  {
    if pairs != [] {
      var n := |pairs| - 1;
      GoodIndicesIncreasing(pairs[..n]);
      GoodIndicesSound(pairs[..n]);
    }
  }

  /** Every pair that passes the ratio test has its position recorded. */
  lemma {:induction false} GoodIndicesComplete(pairs: seq<MatchPair>)
    ensures forall j :: 0 <= j < |pairs| && PassesRatioTest(pairs[j]) ==> j in GoodIndices(pairs)
  {
    if pairs != [] {
      var n := |pairs| - 1;
      GoodIndicesComplete(pairs[..n]);
      forall j | 0 <= j < n && PassesRatioTest(pairs[j])
        ensures j in GoodIndices(pairs)
      {
        assert pairs[..n][j] == pairs[j];
      }
    }
  }

  /** Entry k of the good-match list is the nearest candidate of the pair at
      the k-th recorded position. */
  lemma {:induction false} GoodMatchesAtIndices(pairs: seq<MatchPair>)
    ensures |GoodMatches(pairs)| == |GoodIndices(pairs)|
    ensures forall k :: 0 <= k < |GoodIndices(pairs)| ==>
      GoodIndices(pairs)[k] < |pairs| && |pairs[GoodIndices(pairs)[k]]| == 2
      && GoodMatches(pairs)[k] == pairs[GoodIndices(pairs)[k]][0]
  {
    GoodIndicesSound(pairs);
    if pairs != [] {
      var n := |pairs| - 1;
      GoodMatchesAtIndices(pairs[..n]);
      var idx := GoodIndices(pairs);
      forall k | 0 <= k < |idx|
        ensures GoodMatches(pairs)[k] == pairs[idx[k]][0]
      {
        if k < |GoodIndices(pairs[..n])| {
          assert pairs[..n][idx[k]] == pairs[idx[k]];
        }
      }
    }
  }

  /** The good-match list is exactly the order-preserving subsequence of the
      nearest candidates of the pairs that pass the ratio test: entry k comes
      from pair GoodIndices(pairs)[k], those positions increase, and a pair's
      position is among them if and only if the pair passes. */
  lemma {:induction false} GoodMatchesAreSelectedPairs(pairs: seq<MatchPair>)
    ensures |GoodMatches(pairs)| == |GoodIndices(pairs)|
    ensures forall k :: 0 <= k < |GoodIndices(pairs)| ==>
      GoodIndices(pairs)[k] < |pairs| && PassesRatioTest(pairs[GoodIndices(pairs)[k]])
      && GoodMatches(pairs)[k] == pairs[GoodIndices(pairs)[k]][0]
    ensures forall k, l :: 0 <= k < l < |GoodIndices(pairs)| ==> GoodIndices(pairs)[k] < GoodIndices(pairs)[l]
    ensures forall j :: 0 <= j < |pairs| ==> (PassesRatioTest(pairs[j]) <==> j in GoodIndices(pairs))
  {
    GoodIndicesSound(pairs);
    GoodIndicesIncreasing(pairs);
    GoodIndicesComplete(pairs);
    GoodMatchesAtIndices(pairs);
  }

  /** Selecting good matches distributes over concatenation of pair lists. */
  lemma {:induction false} GoodMatchesAppend(a: seq<MatchPair>, b: seq<MatchPair>)
    ensures GoodMatches(a + b) == GoodMatches(a) + GoodMatches(b)
  {
    if b == [] {
      assert a + b == a;
    } else {
      var n := |b| - 1;
      assert (a + b)[..|a + b| - 1] == a + b[..n];
      assert (a + b)[|a + b| - 1] == b[n];
      GoodMatchesAppend(a, b[..n]);
    }
  }

  /** A pair that does not hold exactly two candidates is never counted,
      whatever its distances: inserting it anywhere leaves the good matches
      unchanged. */
  lemma ShortPairIgnored(a: seq<MatchPair>, p: MatchPair, b: seq<MatchPair>)
    requires |p| != 2
    ensures GoodMatches(a + [p] + b) == GoodMatches(a + b)
  {
    GoodMatchesAppend(a + [p], b);
    GoodMatchesAppend(a, [p]);
    GoodMatchesAppend(a, b);
    assert [p][..0] == [];
  }

  /** The smaller of the two template sizes. */
  function MinFeatures(n1: nat, n2: nat): (m: nat)
    ensures m <= n1 && m <= n2
    ensures m == n1 || m == n2
  {
    if n1 <= n2 then n1 else n2
  }

  /** The similarity score for `good` good matches between templates of
      `n1` and `n2` descriptors: good matches per feature of the smaller
      template, and 0 when either template is empty. */
  function Similarity(good: nat, n1: nat, n2: nat): (s: real)
    ensures MinFeatures(n1, n2) == 0 ==> s == 0.0
    ensures MinFeatures(n1, n2) > 0 ==> s * (MinFeatures(n1, n2) as real) == good as real
    ensures s >= 0.0
    ensures s == 0.0 <==> (good == 0 || MinFeatures(n1, n2) == 0)
    ensures MinFeatures(n1, n2) > 0 ==> (s <= 1.0 <==> good <= MinFeatures(n1, n2))
  {
    var m := MinFeatures(n1, n2);
    if m == 0 then 0.0 else (good as real) / (m as real)
  }

  /** More good matches never lower the score. */
  lemma SimilarityMonotone(g1: nat, g2: nat, n1: nat, n2: nat)
    requires g1 <= g2
    ensures Similarity(g1, n1, n2) <= Similarity(g2, n1, n2)
  {
    var m := MinFeatures(n1, n2);
    if m > 0 {
      assert Similarity(g2, n1, n2) - Similarity(g1, n1, n2) == (g2 - g1) as real / m as real;
    }
  }

  /** When the matcher yields at most one pair per descriptor of the first
      template and the first template is the smaller one, the score is at
      most 1. */
  lemma SimilarityAtMostOne(pairs: seq<MatchPair>, n1: nat, n2: nat)
    requires |pairs| <= n1 <= n2
    ensures Similarity(|GoodMatches(pairs)|, n1, n2) <= 1.0
  {
  }

  /** Three passing pairs, one for each descriptor of a first template of
      three, against a second template of two: the score is 3/2, so the
      score is not bounded by 1 in general. */
  lemma SimilarityCanExceedOne()
    ensures |GoodMatches(ExceedingPairs())| == 3
    ensures Similarity(|GoodMatches(ExceedingPairs())|, 3, 2) == 3.0 / 2.0
  {
    var pairs := ExceedingPairs();
    assert forall q :: 0 <= q < 3 ==> PassesRatioTest(pairs[q]);
    assert pairs[..2][..1] == pairs[..1];
    assert pairs[..3] == pairs;
    assert |GoodMatches(pairs[..1])| == 1;
    assert |GoodMatches(pairs[..2])| == 2;
  }

  /** Three pairs, for query descriptors 0, 1 and 2, each with its nearest
      candidate at half the distance of the second. */
  function ExceedingPairs(): seq<MatchPair>
  {
    seq(3, q => [Candidate(q, 0, 1.0), Candidate(q, 1, 2.0)])
  }

  /** The same witness through the comparison itself: three descriptors
      against two, with the matcher returning the three passing pairs. */
  method CompareScoresAboveOne() returns (r: CompareResult)
    ensures r.Compared? && r.featuresTemplate1 == 3 && r.featuresTemplate2 == 2
    ensures r.goodMatches == r.totalMatches == 3
    ensures r.similarity == 3.0 / 2.0
  {
    SimilarityCanExceedOne();
    r := CompareSiftFeatures([[1.0], [2.0], [3.0]], [[1.0], [2.0]], Matched(ExceedingPairs()));
  }

  /** The comparison of two templates given as their descriptor lists;
      `knn` is what the k = 2 nearest-neighbour matcher returned for them. */
  method CompareSiftFeatures(desc1: seq<Descriptor>, desc2: seq<Descriptor>, knn: MatcherOutcome)
    returns (r: CompareResult)
    ensures knn.MatcherRaised? ==> r == CompareFailed(knn.message)
    ensures knn.Matched? ==>
      var pairs := knn.pairs;
      && r.Compared?
      && r.goodMatches == |GoodMatches(pairs)|
      && r.totalMatches == |pairs|
      && r.featuresTemplate1 == |desc1|
      && r.featuresTemplate2 == |desc2|
      && r.similarity == Similarity(r.goodMatches, |desc1|, |desc2|)
    ensures r.Compared? ==> r.goodMatches <= r.totalMatches && r.similarity >= 0.0
    ensures r.Compared? && (|desc1| == 0 || |desc2| == 0) ==> r.similarity == 0.0
  {
    match knn
    case MatcherRaised(message) =>
      r := CompareFailed(message);
    case Matched(pairs) =>
      var good := FilterGoodMatches(pairs);
      var minFeatures := MinFeatures(|desc1|, |desc2|);
      var score: real;
      if minFeatures == 0 {
        score := 0.0;
      } else {
        score := (|good| as real) / (minFeatures as real);
      }
      r := Compared(score, |good|, |pairs|, |desc1|, |desc2|);
  }
}
