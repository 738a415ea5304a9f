/**
 * The parameter-tuning playground: a chosen algorithm, four hyper-parameters,
 * and a clamped linear formula that predicts accuracy from them.
 */
module ParameterTuning {
  import opened Numeric
  import opened Views

  /** The four sliders of the playground. */
  datatype Params = Params(learningRate: real, treeDepth: real, rounds: real, regularization: real)

  /** The name of one slider, as `updateParam` receives it. */
  datatype ParamKey = LearningRate | TreeDepth | Rounds | Regularization

  /** The field a key names. */
  function Get(p: Params, k: ParamKey): real
  {
    match k
    case LearningRate => p.learningRate
    case TreeDepth => p.treeDepth
    case Rounds => p.rounds
    case Regularization => p.regularization
  }

  /** The record with one field replaced. */
  function WithParam(p: Params, k: ParamKey, v: real): (q: Params)
    ensures Get(q, k) == v
    ensures forall other :: other != k ==> Get(q, other) == Get(p, other)
  {
    match k
    case LearningRate => p.(learningRate := v)
    case TreeDepth => p.(treeDepth := v)
    case Rounds => p.(rounds := v)
    case Regularization => p.(regularization := v)
  }

  /** The sliders' starting positions. */
  const DefaultParams := Params(0.1, 5.0, 100.0, 0.5)

  /** The accuracy the formula starts from, which is also its floor. */
  const BaseAccuracy: real := 70.0

  /** The cap on the predicted accuracy. */
  const MaxAccuracy: real := 99.9

  /** Deep trees cost two points per level beyond ten. */
  function DepthPenalty(depth: real): (penalty: real)
    ensures penalty >= 0.0
    ensures depth <= 10.0 ==> penalty == 0.0
    ensures depth > 10.0 ==> penalty == 2.0 * (depth - 10.0)
  {
    Max(0.0, (depth - 10.0) * 2.0)
  }

  /** More rounds help, a tenth of a point each, up to fifteen points. */
  function RoundsBoost(rounds: real): (boost: real)
    ensures boost <= 15.0
    ensures rounds <= 150.0 ==> boost == rounds / 10.0
    ensures rounds >= 150.0 ==> boost == 15.0
  {
    Min(15.0, rounds / 10.0)
  }

  /** The fixed bonus of each algorithm. */
  function AlgorithmBonus(a: Algo): (bonus: real)
    ensures 0.0 <= bonus <= 8.0
    ensures bonus == 8.0 <==> a == XGBoost
    ensures bonus == 0.0 <==> a == AdaBoost
  {
    match a
    case XGBoost => 8.0
    case GradientBoost => 4.0
    case AdaBoost => 0.0
  }

  /** The sum before the clamp. */
  function RawAccuracy(a: Algo, p: Params): real
  {
    BaseAccuracy + p.learningRate * 100.0 + RoundsBoost(p.rounds) + p.regularization * 20.0
      - DepthPenalty(p.treeDepth) + AlgorithmBonus(a)
  }

  /** The predicted accuracy: the raw sum clamped to [70, 99.9]. */
  function Performance(a: Algo, p: Params): (accuracy: real)
    ensures BaseAccuracy <= accuracy <= MaxAccuracy
    ensures BaseAccuracy <= RawAccuracy(a, p) <= MaxAccuracy ==> accuracy == RawAccuracy(a, p)
    ensures RawAccuracy(a, p) < BaseAccuracy ==> accuracy == BaseAccuracy
    ensures RawAccuracy(a, p) > MaxAccuracy ==> accuracy == MaxAccuracy
  {
    Min(MaxAccuracy, Max(BaseAccuracy, RawAccuracy(a, p)))
  }

  /** With the starting sliders the raw sum for Gradient Boosting is 104, so the cap applies. */
  lemma DefaultPerformance()
    ensures RawAccuracy(GradientBoost, DefaultParams) == 104.0
    ensures Performance(GradientBoost, DefaultParams) == MaxAccuracy
  {
  }

  /** A larger raw sum never predicts less. */
  lemma PerformanceMonotone(a: Algo, p: Params, b: Algo, q: Params)
    requires RawAccuracy(a, p) <= RawAccuracy(b, q)
    ensures Performance(a, p) <= Performance(b, q)
  {
  }

  /** For the same sliders XGBoost never predicts less than Gradient Boosting, nor that less than AdaBoost. */
  lemma AlgorithmOrdering(p: Params)
    ensures Performance(AdaBoost, p) <= Performance(GradientBoost, p) <= Performance(XGBoost, p)
  {
    PerformanceMonotone(AdaBoost, p, GradientBoost, p);
    PerformanceMonotone(GradientBoost, p, XGBoost, p);
  }

  /** The relative training time shown under the sliders. */
  function TrainingTime(p: Params): (t: real)
    ensures t == p.rounds * p.treeDepth / 50.0
  {
    p.rounds * 0.1 * (p.treeDepth / 5.0)
  }

  /** Training time is proportional to rounds and to depth; the starting sliders give 10. */
  lemma TrainingTimeScales(p: Params, k: real)
    ensures TrainingTime(p.(rounds := k * p.rounds)) == k * TrainingTime(p)
    ensures TrainingTime(p.(treeDepth := k * p.treeDepth)) == k * TrainingTime(p)
    ensures TrainingTime(DefaultParams) == 10.0
  {
    assert TrainingTime(p.(rounds := k * p.rounds)) == k * (p.rounds * 0.1 * (p.treeDepth / 5.0));
    assert p.rounds * 0.1 * (k * p.treeDepth / 5.0) == k * (p.rounds * 0.1 * (p.treeDepth / 5.0));
  }

  /** The complexity risk label. */
  datatype Complexity = Low | Medium | High

  /** Depth above 10 is high risk, above 5 medium, otherwise low. */
  function ComplexityOf(depth: real): (c: Complexity)
    ensures c == High <==> depth > 10.0
    ensures c == Low <==> depth <= 5.0
  {
    if depth > 10.0 then High else if depth > 5.0 then Medium else Low
  }

  /** The learning-rate advice lines. */
  datatype Advice = RateTooHigh | RateGood | RateTooLow

  /** The advice lines whose conditions hold; each is guarded on its own. */
  function Recommendations(learningRate: real): (advice: set<Advice>)
    ensures RateTooHigh in advice <==> learningRate > 0.3
    ensures RateTooLow in advice <==> learningRate < 0.05
    ensures RateTooHigh in advice ==> RateTooLow !in advice
  {
    (if learningRate > 0.3 then {RateTooHigh} else {})
      + (if learningRate <= 0.3 && learningRate >= 0.05 then {RateGood} else {})
      + (if learningRate < 0.05 then {RateTooLow} else {})
  }

  /** The three guards split the line: every learning rate shows exactly one line of advice. */
  lemma ExactlyOneRecommendation(learningRate: real)
    ensures |Recommendations(learningRate)| == 1
    ensures RateGood in Recommendations(learningRate) <==> 0.05 <= learningRate <= 0.3
  {
    if learningRate > 0.3 {
      assert Recommendations(learningRate) == {RateTooHigh};
    } else if learningRate >= 0.05 {
      assert Recommendations(learningRate) == {RateGood};
    } else {
      assert Recommendations(learningRate) == {RateTooLow};
    }
  }

  /** The playground's state: the selected algorithm and the slider values. */
  class Playground {
    var algorithm: Algo
    var params: Params

    /** The playground opens on Gradient Boosting with the default sliders. */
    constructor ()
      ensures algorithm == GradientBoost && params == DefaultParams
    {
      algorithm := GradientBoost;
      params := DefaultParams;
    }

    /** An algorithm button selects that algorithm and keeps the sliders. */
    method SelectAlgorithm(a: Algo)
      modifies this
      ensures algorithm == a && params == old(params)
    {
      algorithm := a;
    }

    /** A slider sets its own field and leaves the other three as they were. */
    method UpdateParam(k: ParamKey, v: real)
      modifies this
      ensures algorithm == old(algorithm)
      ensures params == WithParam(old(params), k, v)
    {
      params := WithParam(params, k, v);
    }

    /** The predicted accuracy, accumulated term by term and then clamped. */
    method PredictPerformance() returns (accuracy: real)
      ensures accuracy == Performance(algorithm, params)
      ensures BaseAccuracy <= accuracy <= MaxAccuracy
    {
      var learningBoost := params.learningRate * 100.0;
      var depthPenalty := Max(0.0, (params.treeDepth - 10.0) * 2.0);
      var roundsBoost := Min(15.0, params.rounds / 10.0);
      var regularizationBoost := params.regularization * 20.0;
      accuracy := BaseAccuracy + learningBoost + roundsBoost + regularizationBoost - depthPenalty;
      if algorithm == XGBoost {
        accuracy := accuracy + 8.0;
      }
      if algorithm == GradientBoost {
        accuracy := accuracy + 4.0;
      }
      accuracy := Min(MaxAccuracy, Max(BaseAccuracy, accuracy));
    }
  }
}
