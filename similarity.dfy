/**
 * `calculateFaceSimilarity` (src/helpers/calculateSimilarity.js): a weighted
 * average of a landmark-distance score and a facial-feature score, each taken
 * only over the keys both faces can be compared on.
 *
 * `Math.sqrt` and `Math.exp` are foreign numerics. They are passed in as
 * functions, and the lemmas say which of their properties they rely on
 * (IsSqrt, IsExp); nothing about IEEE rounding is modelled.
 */
module Similarity {
  import opened Wrappers
  import opened Sequences

  // ---------------------------------------------------------------------
  // Foreign numerics
  // ---------------------------------------------------------------------

  /** Math.sqrt on the non-negative reals: 0 at 0 and positive above it. */
  ghost predicate IsSqrt(sqrt: real -> real) {
    && sqrt(0.0) == 0.0
    && (forall x :: x > 0.0 ==> sqrt(x) > 0.0)
  }

  /** Math.exp: positive and non-decreasing. */
  ghost predicate IsExp(exp: real -> real) {
    && (forall x :: exp(x) > 0.0)
    && (forall x, y :: x <= y ==> exp(x) <= exp(y))
  }

  // ---------------------------------------------------------------------
  // Face annotations
  // ---------------------------------------------------------------------

  datatype Point = Point(x: real, y: real)

  datatype Landmark =
    | LeftEyePosition | RightEyePosition | NosePosition
    | MouthLeftPosition | MouthRightPosition
    | LeftEyebrowUpperMidPosition | RightEyebrowUpperMidPosition
    | LeftEarPosition | RightEarPosition | ChinPosition

  /** The landmark keys, in the order the scorer visits them. */
  const LandmarkKeys: seq<Landmark> := [
    LeftEyePosition, RightEyePosition, NosePosition,
    MouthLeftPosition, MouthRightPosition,
    LeftEyebrowUpperMidPosition, RightEyebrowUpperMidPosition,
    LeftEarPosition, RightEarPosition, ChinPosition
  ]

  datatype Emotion = Joy | Sorrow | Anger | Surprise
  datatype ConfidenceKind = DetectionConfidence | LandmarkingConfidence

  /** A feature key is either a `...Likelihood` key or a `...Confidence` key. */
  datatype FeatureKey = LikelihoodKey(emotion: Emotion) | ConfidenceKey(kind: ConfidenceKind)

  /** The feature keys, in the order the scorer visits them. */
  const FeatureKeys: seq<FeatureKey> := [
    LikelihoodKey(Joy), LikelihoodKey(Sorrow), LikelihoodKey(Anger), LikelihoodKey(Surprise),
    ConfidenceKey(DetectionConfidence), ConfidenceKey(LandmarkingConfidence)
  ]

  /** The six-level likelihood scale; a value's ordinal is its position here. */
  const LikelihoodValues: seq<string> :=
    ["UNKNOWN", "VERY_UNLIKELY", "UNLIKELY", "POSSIBLE", "LIKELY", "VERY_LIKELY"]

  /**
   * One face annotation. A key missing from a map is a property that is
   * absent (a falsy landmark, an `undefined` feature).
   */
  datatype Face = Face(
    landmarks: map<Landmark, Point>,
    likelihoods: map<Emotion, string>,
    confidences: map<ConfidenceKind, real>)

  const LandmarkWeight: real := 0.7
  const FeatureWeight: real := 0.3
  /** The distance at which a landmark scores one half. */
  const LogisticMidpoint: real := 10.0

  // ---------------------------------------------------------------------
  // Per-key terms
  // ---------------------------------------------------------------------

  function Square(a: real): real { a * a }

  function Abs(a: real): real { if a < 0.0 then -a else a }

  /** calculateDistance: the Euclidean distance of two points. */
  function Distance(sqrt: real -> real, p: Point, q: Point): (d: real)
    ensures IsSqrt(sqrt) ==> d >= 0.0
    ensures IsSqrt(sqrt) && p == q ==> d == 0.0
  {
    SquareNonNegative(p.x - q.x);
    SquareNonNegative(p.y - q.y);
    sqrt(Square(p.x - q.x) + Square(p.y - q.y))
  }

  /** The logistic landmark term `1 / (1 + e^(d - 10))`. */
  function LandmarkTerm(exp: real -> real, d: real): (t: real)
    requires IsExp(exp)
    ensures 0.0 < t < 1.0
  {
    var e := exp(d - LogisticMidpoint);
    ReciprocalBounds(1.0 + e);
    1.0 / (1.0 + e)
  }

  /** Two likelihood ordinals scored `1 - |i1 - i2| / 5`. */
  function LikelihoodTerm(i1: nat, i2: nat): (r: real)
    requires i1 < |LikelihoodValues| && i2 < |LikelihoodValues|
    ensures 0.0 <= r <= 1.0
    ensures r == 1.0 <==> i1 == i2
  {
    var maxDiff := |LikelihoodValues| - 1;
    var diff := if i1 >= i2 then i1 - i2 else i2 - i1;
    1.0 - (diff as real) / (maxDiff as real)
  }

  /** A landmark is compared only when both faces have it. */
  predicate LandmarkComparable(key: Landmark, f1: Face, f2: Face) {
    key in f1.landmarks && key in f2.landmarks
  }

  function LandmarkContribution(key: Landmark, f1: Face, f2: Face, sqrt: real -> real, exp: real -> real): real
    requires IsExp(exp)
  {
    if LandmarkComparable(key, f1, f2)
    then LandmarkTerm(exp, Distance(sqrt, f1.landmarks[key], f2.landmarks[key]))
    else 0.0
  }

  /**
   * The term of one feature key, None when the key does not compare: absent
   * from a face, or a likelihood that is not one of the six listed values.
   */
  function FeatureTerm(key: FeatureKey, f1: Face, f2: Face): Option<real>
  {
    match key
    case LikelihoodKey(e) =>
      if e in f1.likelihoods && e in f2.likelihoods then
        var i1 := IndexOf(LikelihoodValues, f1.likelihoods[e]);
        var i2 := IndexOf(LikelihoodValues, f2.likelihoods[e]);
        if i1 != -1 && i2 != -1 then Some(LikelihoodTerm(i1, i2)) else None
      else None
    case ConfidenceKey(c) =>
      if c in f1.confidences && c in f2.confidences
      then Some(1.0 - Abs(f1.confidences[c] - f2.confidences[c]))
      else None
  }

  // ---------------------------------------------------------------------
  // Accumulated sums and counts over a list of keys
  // ---------------------------------------------------------------------

  function LandmarkScore(keys: seq<Landmark>, f1: Face, f2: Face, sqrt: real -> real, exp: real -> real): real
    requires IsExp(exp)
  {
    if keys == [] then 0.0
    else LandmarkScore(keys[..|keys| - 1], f1, f2, sqrt, exp)
         + LandmarkContribution(keys[|keys| - 1], f1, f2, sqrt, exp)
  }

  function ValidLandmarks(keys: seq<Landmark>, f1: Face, f2: Face): nat
  {
    if keys == [] then 0
    else ValidLandmarks(keys[..|keys| - 1], f1, f2)
         + (if LandmarkComparable(keys[|keys| - 1], f1, f2) then 1 else 0)
  }

  function FeatureScore(keys: seq<FeatureKey>, f1: Face, f2: Face): real
  {
    if keys == [] then 0.0
    else
      var t := FeatureTerm(keys[|keys| - 1], f1, f2);
      FeatureScore(keys[..|keys| - 1], f1, f2) + (if t.Some? then t.value else 0.0)
  }

  function ValidFeatures(keys: seq<FeatureKey>, f1: Face, f2: Face): nat
  {
    if keys == [] then 0
    else ValidFeatures(keys[..|keys| - 1], f1, f2)
         + (if FeatureTerm(keys[|keys| - 1], f1, f2).Some? then 1 else 0)
  }

  /** The mean landmark term, defined when some landmark compares. */
  function LandmarkAverage(f1: Face, f2: Face, sqrt: real -> real, exp: real -> real): real
    requires IsExp(exp)
    requires ValidLandmarks(LandmarkKeys, f1, f2) > 0
  {
    LandmarkScore(LandmarkKeys, f1, f2, sqrt, exp) / (ValidLandmarks(LandmarkKeys, f1, f2) as real)
  }

  /** The mean feature term, defined when some feature compares. */
  function FeatureAverage(f1: Face, f2: Face): real
    requires ValidFeatures(FeatureKeys, f1, f2) > 0
  {
    FeatureScore(FeatureKeys, f1, f2) / (ValidFeatures(FeatureKeys, f1, f2) as real)
  }

  /**
   * The score as a function: each group that compares adds its weighted mean
   * and its weight, and the sum is divided by the weight used (0 if none).
   */
  function Similarity(f1: Face, f2: Face, sqrt: real -> real, exp: real -> real): real
    requires IsExp(exp)
  {
    var nl := ValidLandmarks(LandmarkKeys, f1, f2);
    var nf := ValidFeatures(FeatureKeys, f1, f2);
    var landmarkPart := if nl > 0 then LandmarkAverage(f1, f2, sqrt, exp) * LandmarkWeight else 0.0;
    var featurePart := if nf > 0 then FeatureAverage(f1, f2) * FeatureWeight else 0.0;
    var totalWeight := (if nl > 0 then LandmarkWeight else 0.0) + (if nf > 0 then FeatureWeight else 0.0);
    if totalWeight == 0.0 then 0.0 else (landmarkPart + featurePart) / totalWeight
  }

  // ---------------------------------------------------------------------
  // The scorer
  // ---------------------------------------------------------------------

  /** The body of the feature loop for one key: its term, or None when the key does not compare. */
  method CompareFeature(key: FeatureKey, face1: Face, face2: Face) returns (term: Option<real>)
    ensures term == FeatureTerm(key, face1, face2)
  {
    term := None;
    match key {
      case LikelihoodKey(e) =>
        if e in face1.likelihoods && e in face2.likelihoods {
          var index1 := IndexOf(LikelihoodValues, face1.likelihoods[e]);
          var index2 := IndexOf(LikelihoodValues, face2.likelihoods[e]);
          if index1 != -1 && index2 != -1 {
            term := Some(LikelihoodTerm(index1, index2));
          }
        }
      case ConfidenceKey(c) =>
        if c in face1.confidences && c in face2.confidences {
          var diff := Abs(face1.confidences[c] - face2.confidences[c]);
          term := Some(1.0 - diff);
        }
    }
  }

  /** The landmark `forEach`: the sum of the landmark terms and how many landmarks compared. */
  method AccumulateLandmarks(face1: Face, face2: Face, sqrt: real -> real, exp: real -> real)
    returns (landmarkScore: real, validLandmarks: nat)
    requires IsExp(exp)
    ensures landmarkScore == LandmarkScore(LandmarkKeys, face1, face2, sqrt, exp)
    ensures validLandmarks == ValidLandmarks(LandmarkKeys, face1, face2)
  {
    landmarkScore, validLandmarks := 0.0, 0;
    for i := 0 to |LandmarkKeys|
      invariant landmarkScore == LandmarkScore(LandmarkKeys[..i], face1, face2, sqrt, exp)
      invariant validLandmarks == ValidLandmarks(LandmarkKeys[..i], face1, face2)
    {
      var key := LandmarkKeys[i];
      assert LandmarkKeys[..i + 1][..i] == LandmarkKeys[..i];
      if key in face1.landmarks && key in face2.landmarks {
        var distance := Distance(sqrt, face1.landmarks[key], face2.landmarks[key]);
        landmarkScore := landmarkScore + 1.0 / (1.0 + exp(distance - LogisticMidpoint));
        validLandmarks := validLandmarks + 1;
      }
    }
    assert LandmarkKeys[..|LandmarkKeys|] == LandmarkKeys;
  }

  /** The feature `forEach`: the sum of the feature terms and how many features compared. */
  method AccumulateFeatures(face1: Face, face2: Face) returns (featureScore: real, validFeatures: nat)
    ensures featureScore == FeatureScore(FeatureKeys, face1, face2)
    ensures validFeatures == ValidFeatures(FeatureKeys, face1, face2)
  {
    featureScore, validFeatures := 0.0, 0;
    for i := 0 to |FeatureKeys|
      invariant featureScore == FeatureScore(FeatureKeys[..i], face1, face2)
      invariant validFeatures == ValidFeatures(FeatureKeys[..i], face1, face2)
    {
      var key := FeatureKeys[i];
      assert FeatureKeys[..i + 1][..i] == FeatureKeys[..i];
      var term := CompareFeature(key, face1, face2);
      if term.Some? {
        featureScore := featureScore + term.value;
        validFeatures := validFeatures + 1;
      }
    }
    assert FeatureKeys[..|FeatureKeys|] == FeatureKeys;
  }

  /**
   * calculateFaceSimilarity: each group that compares adds its weighted mean
   * to the score and its weight to the total, and the score is renormalised.
   */
  method CalculateFaceSimilarity(face1: Face, face2: Face, sqrt: real -> real, exp: real -> real)
    returns (score: real)
    requires IsExp(exp)
    ensures score == Similarity(face1, face2, sqrt, exp)
  {
    var similarityScore := 0.0;
    var totalWeight := 0.0;

    var landmarkScore, validLandmarks := AccumulateLandmarks(face1, face2, sqrt, exp);
    if validLandmarks > 0 {
      similarityScore := similarityScore + (landmarkScore / validLandmarks as real) * LandmarkWeight;
      totalWeight := totalWeight + LandmarkWeight;
    }

    var featureScore, validFeatures := AccumulateFeatures(face1, face2);
    if validFeatures > 0 {
      similarityScore := similarityScore + (featureScore / validFeatures as real) * FeatureWeight;
      totalWeight := totalWeight + FeatureWeight;
    }

    if totalWeight == 0.0 {
      return 0.0;
    }
    score := similarityScore / totalWeight;
  }

  // ---------------------------------------------------------------------
  // Properties of the score
  // ---------------------------------------------------------------------

  /** calculateDistance is non-negative, symmetric and zero on equal points. */
  lemma DistanceIsMetricLike(sqrt: real -> real, p: Point, q: Point)
    requires IsSqrt(sqrt)
    ensures Distance(sqrt, p, q) >= 0.0
    ensures Distance(sqrt, p, q) == Distance(sqrt, q, p)
    ensures p == q ==> Distance(sqrt, p, q) == 0.0
  {
    SquareNonNegative(p.x - q.x);
    SquareNonNegative(p.y - q.y);
    assert Square(q.x - p.x) == Square(p.x - q.x) && Square(q.y - p.y) == Square(p.y - q.y);
  }

  lemma SquareNonNegative(a: real)
    ensures Square(a) >= 0.0
  {
  }

  /** A landmark farther apart never scores higher. */
  lemma LandmarkTermAntitone(exp: real -> real, d1: real, d2: real)
    requires IsExp(exp) && d1 <= d2
    ensures LandmarkTerm(exp, d2) <= LandmarkTerm(exp, d1)
  {
    var e1, e2 := exp(d1 - LogisticMidpoint), exp(d2 - LogisticMidpoint);
    assert 0.0 < e1 <= e2;
    ReciprocalAntitone(1.0 + e1, 1.0 + e2);
  }

  // Real-arithmetic steps, each proved from a product the solver is given.

  lemma PositiveFactor(x: real, n: real)
    requires n > 0.0 && x * n > 0.0
    ensures x > 0.0
  {
  }

  lemma NonNegativeFactor(x: real, n: real)
    requires n > 0.0 && x * n >= 0.0
    ensures x >= 0.0
  {
  }

  lemma ProductPositive(x: real, y: real)
    requires x > 0.0 && y > 0.0
    ensures x * y > 0.0
  {
  }

  lemma DivStrictBounds(a: real, n: real)
    requires n > 0.0 && 0.0 < a < n
    ensures 0.0 < a / n < 1.0
  {
    var q := a / n;
    assert q * n == a;
    PositiveFactor(q, n);
    assert (1.0 - q) * n == n - a;
    PositiveFactor(1.0 - q, n);
  }

  lemma DivBounds(a: real, n: real, lo: real, hi: real)
    requires n > 0.0 && lo * n <= a <= hi * n
    ensures lo <= a / n <= hi
  {
    var q := a / n;
    assert q * n == a;
    assert (q - lo) * n == a - lo * n;
    assert (hi - q) * n == hi * n - a;
    NonNegativeFactor(q - lo, n);
    NonNegativeFactor(hi - q, n);
  }

  lemma DivMonotone(a: real, b: real, n: real)
    requires n > 0.0 && a <= b
    ensures a / n <= b / n
  {
    assert (b / n - a / n) * n == b - a;
    NonNegativeFactor(b / n - a / n, n);
  }

  lemma ReciprocalBounds(a: real)
    requires a > 1.0
    ensures 0.0 < 1.0 / a < 1.0
  {
    DivStrictBounds(1.0, a);
  }

  lemma ReciprocalAntitone(a: real, b: real)
    requires 0.0 < a <= b
    ensures 1.0 / b <= 1.0 / a
  {
    var p, q := 1.0 / a, 1.0 / b;
    assert p * a == 1.0 && q * b == 1.0;
    assert (p - q) * (a * b) == b - a;
    ProductPositive(a, b);
    NonNegativeFactor(p - q, a * b);
  }

  /** The landmark sum is 0 over no comparable key and otherwise strictly between 0 and the count. */
  lemma {:induction false} LandmarkScoreBounds(keys: seq<Landmark>, f1: Face, f2: Face, sqrt: real -> real, exp: real -> real)
    requires IsExp(exp)
    ensures ValidLandmarks(keys, f1, f2) == 0 ==> LandmarkScore(keys, f1, f2, sqrt, exp) == 0.0
    ensures ValidLandmarks(keys, f1, f2) > 0 ==>
      0.0 < LandmarkScore(keys, f1, f2, sqrt, exp) < ValidLandmarks(keys, f1, f2) as real
  {
    if keys != [] {
      LandmarkScoreBounds(keys[..|keys| - 1], f1, f2, sqrt, exp);
    }
  }

  /** No landmark is counted exactly when no key is present in both faces. */
  lemma {:induction false} NoCommonLandmark(keys: seq<Landmark>, f1: Face, f2: Face)
    ensures ValidLandmarks(keys, f1, f2) == 0 <==>
      forall i :: 0 <= i < |keys| ==> !LandmarkComparable(keys[i], f1, f2)
  {
    if keys != [] {
      var init := keys[..|keys| - 1];
      NoCommonLandmark(init, f1, f2);
      assert forall i :: 0 <= i < |init| ==> init[i] == keys[i];
    }
  }

  /** No feature is counted exactly when no feature key compares. */
  lemma {:induction false} NoComparableFeature(keys: seq<FeatureKey>, f1: Face, f2: Face)
    ensures ValidFeatures(keys, f1, f2) == 0 <==>
      forall i :: 0 <= i < |keys| ==> FeatureTerm(keys[i], f1, f2).None?
  {
    if keys != [] {
      var init, last := keys[..|keys| - 1], keys[|keys| - 1];
      NoComparableFeature(init, f1, f2);
      assert keys == init + [last];
    }
  }

  /** With no landmark shared by both faces and no feature that compares, the score is exactly 0. */
  lemma NothingComparableScoresZero(f1: Face, f2: Face, sqrt: real -> real, exp: real -> real)
    requires IsExp(exp)
    requires forall k: Landmark :: !LandmarkComparable(k, f1, f2)
    requires forall k: FeatureKey :: FeatureTerm(k, f1, f2).None?
    ensures Similarity(f1, f2, sqrt, exp) == 0.0
  {
    NoCommonLandmark(LandmarkKeys, f1, f2);
    NoComparableFeature(FeatureKeys, f1, f2);
  }

  /** When some landmark compares, their mean lies strictly between 0 and 1. */
  lemma LandmarkAverageBounds(f1: Face, f2: Face, sqrt: real -> real, exp: real -> real)
    requires IsExp(exp)
    requires ValidLandmarks(LandmarkKeys, f1, f2) > 0
    ensures 0.0 < LandmarkAverage(f1, f2, sqrt, exp) < 1.0
  {
    LandmarkScoreBounds(LandmarkKeys, f1, f2, sqrt, exp);
    DivStrictBounds(LandmarkScore(LandmarkKeys, f1, f2, sqrt, exp), ValidLandmarks(LandmarkKeys, f1, f2) as real);
  }

  /**
   * A likelihood counts only when both faces carry one of the six listed
   * values; its term then lies in [0, 1] and is 1 exactly when they agree.
   */
  lemma LikelihoodFeature(e: Emotion, f1: Face, f2: Face)
    ensures FeatureTerm(LikelihoodKey(e), f1, f2).Some? <==>
      && e in f1.likelihoods && f1.likelihoods[e] in LikelihoodValues
      && e in f2.likelihoods && f2.likelihoods[e] in LikelihoodValues
    ensures FeatureTerm(LikelihoodKey(e), f1, f2).Some? ==>
      && 0.0 <= FeatureTerm(LikelihoodKey(e), f1, f2).value <= 1.0
      && (FeatureTerm(LikelihoodKey(e), f1, f2).value == 1.0 <==> f1.likelihoods[e] == f2.likelihoods[e])
  {
    if e in f1.likelihoods && e in f2.likelihoods {
      var v1, v2 := f1.likelihoods[e], f2.likelihoods[e];
      var i1, i2 := IndexOf(LikelihoodValues, v1), IndexOf(LikelihoodValues, v2);
      if i1 != -1 && i2 != -1 {
        assert LikelihoodValues[i1] == v1 && LikelihoodValues[i2] == v2;
        if v1 == v2 {
          assert i1 == i2;
        }
      }
    }
  }

  /** Confidence scalars in [0, 1], as the detector reports them. */
  ghost predicate UnitConfidences(f: Face) {
    forall c :: c in f.confidences ==> 0.0 <= f.confidences[c] <= 1.0
  }

  lemma FeatureTermBounds(key: FeatureKey, f1: Face, f2: Face)
    requires UnitConfidences(f1) && UnitConfidences(f2)
    ensures FeatureTerm(key, f1, f2).Some? ==> 0.0 <= FeatureTerm(key, f1, f2).value <= 1.0
  {
  }

  lemma {:induction false} FeatureScoreBounds(keys: seq<FeatureKey>, f1: Face, f2: Face)
    requires UnitConfidences(f1) && UnitConfidences(f2)
    ensures 0.0 <= FeatureScore(keys, f1, f2) <= ValidFeatures(keys, f1, f2) as real
  {
    if keys != [] {
      FeatureScoreBounds(keys[..|keys| - 1], f1, f2);
      FeatureTermBounds(keys[|keys| - 1], f1, f2);
    }
  }

  /** With confidences in [0, 1], the mean feature term lies in [0, 1]. */
  lemma FeatureAverageBounds(f1: Face, f2: Face)
    requires UnitConfidences(f1) && UnitConfidences(f2)
    requires ValidFeatures(FeatureKeys, f1, f2) > 0
    ensures 0.0 <= FeatureAverage(f1, f2) <= 1.0
  {
    FeatureScoreBounds(FeatureKeys, f1, f2);
    DivBounds(FeatureScore(FeatureKeys, f1, f2), ValidFeatures(FeatureKeys, f1, f2) as real, 0.0, 1.0);
  }

  /**
   * The renormalisation: landmarks alone give the landmark mean, features
   * alone the feature mean, and both together 0.7 L + 0.3 F.
   */
  lemma SimilarityCombination(f1: Face, f2: Face, sqrt: real -> real, exp: real -> real)
    requires IsExp(exp)
    ensures ValidLandmarks(LandmarkKeys, f1, f2) > 0 && ValidFeatures(FeatureKeys, f1, f2) == 0 ==>
      Similarity(f1, f2, sqrt, exp) == LandmarkAverage(f1, f2, sqrt, exp)
    ensures ValidLandmarks(LandmarkKeys, f1, f2) == 0 && ValidFeatures(FeatureKeys, f1, f2) > 0 ==>
      Similarity(f1, f2, sqrt, exp) == FeatureAverage(f1, f2)
    ensures ValidLandmarks(LandmarkKeys, f1, f2) > 0 && ValidFeatures(FeatureKeys, f1, f2) > 0 ==>
      Similarity(f1, f2, sqrt, exp)
      == LandmarkWeight * LandmarkAverage(f1, f2, sqrt, exp) + FeatureWeight * FeatureAverage(f1, f2)
  {
  }

  /** With confidences in [0, 1] the score lies in [0, 1], as the doc comment promises. */
  lemma SimilarityInUnitInterval(f1: Face, f2: Face, sqrt: real -> real, exp: real -> real)
    requires IsExp(exp)
    requires UnitConfidences(f1) && UnitConfidences(f2)
    ensures 0.0 <= Similarity(f1, f2, sqrt, exp) <= 1.0
  {
    SimilarityCombination(f1, f2, sqrt, exp);
    if ValidLandmarks(LandmarkKeys, f1, f2) > 0 {
      LandmarkAverageBounds(f1, f2, sqrt, exp);
    }
    if ValidFeatures(FeatureKeys, f1, f2) > 0 {
      FeatureAverageBounds(f1, f2);
    }
  }

  lemma {:induction false} LandmarkSumsSymmetric(keys: seq<Landmark>, f1: Face, f2: Face, sqrt: real -> real, exp: real -> real)
    requires IsExp(exp)
    ensures LandmarkScore(keys, f1, f2, sqrt, exp) == LandmarkScore(keys, f2, f1, sqrt, exp)
    ensures ValidLandmarks(keys, f1, f2) == ValidLandmarks(keys, f2, f1)
  {
    if keys != [] {
      var k := keys[|keys| - 1];
      LandmarkSumsSymmetric(keys[..|keys| - 1], f1, f2, sqrt, exp);
      if LandmarkComparable(k, f1, f2) {
        var p, q := f1.landmarks[k], f2.landmarks[k];
        assert Square(p.x - q.x) == Square(q.x - p.x) && Square(p.y - q.y) == Square(q.y - p.y);
        assert Distance(sqrt, p, q) == Distance(sqrt, q, p);
      }
    }
  }

  lemma {:induction false} FeatureSumsSymmetric(keys: seq<FeatureKey>, f1: Face, f2: Face)
    ensures FeatureScore(keys, f1, f2) == FeatureScore(keys, f2, f1)
    ensures ValidFeatures(keys, f1, f2) == ValidFeatures(keys, f2, f1)
  {
    if keys != [] {
      FeatureSumsSymmetric(keys[..|keys| - 1], f1, f2);
      FeatureTermSymmetric(keys[|keys| - 1], f1, f2);
    }
  }

  lemma FeatureTermSymmetric(key: FeatureKey, f1: Face, f2: Face)
    ensures FeatureTerm(key, f1, f2) == FeatureTerm(key, f2, f1)
  {
    match key
    case LikelihoodKey(e) =>
      if e in f1.likelihoods && e in f2.likelihoods {
        var i1 := IndexOf(LikelihoodValues, f1.likelihoods[e]);
        var i2 := IndexOf(LikelihoodValues, f2.likelihoods[e]);
        if i1 != -1 && i2 != -1 {
          assert LikelihoodTerm(i1, i2) == LikelihoodTerm(i2, i1);
        }
      }
    case ConfidenceKey(c) =>
  }

  /** Swapping the two faces leaves the score unchanged. */
  lemma SimilaritySymmetric(f1: Face, f2: Face, sqrt: real -> real, exp: real -> real)
    requires IsExp(exp)
    ensures Similarity(f1, f2, sqrt, exp) == Similarity(f2, f1, sqrt, exp)
  {
    LandmarkSumsSymmetric(LandmarkKeys, f1, f2, sqrt, exp);
    FeatureSumsSymmetric(FeatureKeys, f1, f2);
  }

  /** `f` with landmark `k` moved to `p`. */
  function MoveLandmark(f: Face, k: Landmark, p: Point): Face
  {
    f.(landmarks := f.landmarks[k := p])
  }

  lemma {:induction false} MovedLandmarkSums(keys: seq<Landmark>, f1: Face, f2: Face, k: Landmark, p: Point,
                                             sqrt: real -> real, exp: real -> real)
    requires IsExp(exp)
    requires LandmarkComparable(k, f1, f2)
    requires Distance(sqrt, f1.landmarks[k], f2.landmarks[k]) <= Distance(sqrt, f1.landmarks[k], p)
    ensures LandmarkScore(keys, f1, MoveLandmark(f2, k, p), sqrt, exp) <= LandmarkScore(keys, f1, f2, sqrt, exp)
    ensures ValidLandmarks(keys, f1, MoveLandmark(f2, k, p)) == ValidLandmarks(keys, f1, f2)
  {
    if keys != [] {
      MovedLandmarkSums(keys[..|keys| - 1], f1, f2, k, p, sqrt, exp);
      if keys[|keys| - 1] == k {
        LandmarkTermAntitone(exp, Distance(sqrt, f1.landmarks[k], f2.landmarks[k]), Distance(sqrt, f1.landmarks[k], p));
      }
    }
  }

  lemma {:induction false} FeatureSumsIgnoreLandmarks(keys: seq<FeatureKey>, f1: Face, f2: Face, g2: Face)
    requires g2.likelihoods == f2.likelihoods && g2.confidences == f2.confidences
    ensures FeatureScore(keys, f1, g2) == FeatureScore(keys, f1, f2)
    ensures ValidFeatures(keys, f1, g2) == ValidFeatures(keys, f1, f2)
  {
    if keys != [] {
      FeatureSumsIgnoreLandmarks(keys[..|keys| - 1], f1, f2, g2);
      var k := keys[|keys| - 1];
      assert FeatureTerm(k, f1, g2) == FeatureTerm(k, f1, f2) by {
        match k
        case LikelihoodKey(e) =>
        case ConfidenceKey(c) =>
      }
    }
  }

  /** Moving one shared landmark farther apart, all else fixed, never raises the score. */
  lemma FartherLandmarkNeverIncreases(f1: Face, f2: Face, k: Landmark, p: Point, sqrt: real -> real, exp: real -> real)
    requires IsExp(exp)
    requires LandmarkComparable(k, f1, f2)
    requires Distance(sqrt, f1.landmarks[k], f2.landmarks[k]) <= Distance(sqrt, f1.landmarks[k], p)
    ensures Similarity(f1, MoveLandmark(f2, k, p), sqrt, exp) <= Similarity(f1, f2, sqrt, exp)
  {
    var g2 := MoveLandmark(f2, k, p);
    MovedLandmarkSums(LandmarkKeys, f1, f2, k, p, sqrt, exp);
    FeatureSumsIgnoreLandmarks(FeatureKeys, f1, f2, g2);
    assert k in LandmarkKeys;
    NoCommonLandmark(LandmarkKeys, f1, f2);
    var n := ValidLandmarks(LandmarkKeys, f1, f2);
    assert n > 0;
    DivMonotone(LandmarkScore(LandmarkKeys, f1, g2, sqrt, exp), LandmarkScore(LandmarkKeys, f1, f2, sqrt, exp), n as real);
    var nf := ValidFeatures(FeatureKeys, f1, f2);
    var fp := if nf > 0 then FeatureAverage(f1, f2) * FeatureWeight else 0.0;
    var w := LandmarkWeight + (if nf > 0 then FeatureWeight else 0.0);
    DivMonotone(LandmarkAverage(f1, g2, sqrt, exp) * LandmarkWeight + fp,
                LandmarkAverage(f1, f2, sqrt, exp) * LandmarkWeight + fp, w);
  }

  lemma {:induction false} SelfLandmarkSums(keys: seq<Landmark>, f: Face, sqrt: real -> real, exp: real -> real)
    requires IsSqrt(sqrt) && IsExp(exp)
    ensures LandmarkScore(keys, f, f, sqrt, exp) == (ValidLandmarks(keys, f, f) as real) * LandmarkTerm(exp, 0.0)
  {
    if keys != [] {
      var k := keys[|keys| - 1];
      SelfLandmarkSums(keys[..|keys| - 1], f, sqrt, exp);
      if LandmarkComparable(k, f, f) {
        DistanceIsMetricLike(sqrt, f.landmarks[k], f.landmarks[k]);
      }
    }
  }

  lemma {:induction false} SelfFeatureSums(keys: seq<FeatureKey>, f: Face)
    ensures FeatureScore(keys, f, f) == ValidFeatures(keys, f, f) as real
  {
    if keys != [] {
      var k := keys[|keys| - 1];
      SelfFeatureSums(keys[..|keys| - 1], f);
      if k.LikelihoodKey? {
        LikelihoodFeature(k.emotion, f, f);
      }
    }
  }

  /**
   * A face compared with itself: every landmark scores the logistic term at
   * distance 0 and every feature scores 1.
   */
  lemma SelfSimilarity(f: Face, sqrt: real -> real, exp: real -> real)
    requires IsSqrt(sqrt) && IsExp(exp)
    ensures ValidLandmarks(LandmarkKeys, f, f) > 0 ==> LandmarkAverage(f, f, sqrt, exp) == LandmarkTerm(exp, 0.0)
    ensures ValidFeatures(FeatureKeys, f, f) > 0 ==> FeatureAverage(f, f) == 1.0
  {
    SelfLandmarkSums(LandmarkKeys, f, sqrt, exp);
    SelfFeatureSums(FeatureKeys, f);
    var nl := ValidLandmarks(LandmarkKeys, f, f);
    if nl > 0 {
      MeanOfEqualTerms(LandmarkScore(LandmarkKeys, f, f, sqrt, exp), nl as real, LandmarkTerm(exp, 0.0));
    }
    var nf := ValidFeatures(FeatureKeys, f, f);
    if nf > 0 {
      MeanOfEqualTerms(FeatureScore(FeatureKeys, f, f), nf as real, 1.0);
    }
  }

  /** n equal terms have that term as their mean. */
  lemma MeanOfEqualTerms(sum: real, n: real, t: real)
    requires n > 0.0 && sum == n * t
    ensures sum / n == t
  {
  }
}
