/**
 The three numeric answers whose distribution depends on earlier answers: Willingness_To_Pay
 (app.py:114-126), Fitness_Importance_1_10 (app.py:128-137) and NPS_Recommend_1_10
 (app.py:151-160). Each is a normal draw whose parameters a priority-ordered chain of
 conditions selects; the two scores are truncated to whole numbers and clipped to [1, 10], the
 payment is truncated after taking its magnitude and floored at 50.
 */
module Scores {
  import opened Answers
  import opened Numeric
  import Premium

  // Normal distributions, mean and standard deviation in tenths.
  const SubscriberPay: Normal := Normal(7000, 1500)
  const HighIncomeBoost: Normal := Normal(2000, 800)
  const FreePay: Normal := Normal(3500, 1200)
  const PayOutlier: Normal := Normal(20000, 6000)
  /** `random.random() < 0.015`, in thousandths. */
  const OutlierChance: nat := 15
  const PayFloor: int := 50

  const SubscriberImportance: Normal := Normal(80, 13)
  const NonUserImportance: Normal := Normal(40, 12)
  const UserImportance: Normal := Normal(60, 16)

  const SubscriberNps: Normal := Normal(80, 14)
  const UserNps: Normal := Normal(70, 18)
  const NonUserNps: Normal := Normal(40, 13)

  const ScoreMin: int := 1
  const ScoreMax: int := 10

  /** The draws of one payment: the base deviate, the income-boost deviate, the uniform
      outlier draw and the outlier deviate. */
  datatype PayDraws = PayDraws(base: int, boost: int, outlier: Permille, outlierSize: int)

  /** Whether the income-based boost applies (line 119). */
  predicate Boosted(premium: YesNo, income: int) {
    premium == Yes && income > Premium.IncomeThreshold
  }

  /** The drawn amount, in thousandths, before its magnitude is taken (lines 117-125). */
  function Amount(premium: YesNo, income: int, d: PayDraws): (amount: int) {
    (if premium == Yes then Value(SubscriberPay, d.base) else Value(FreePay, d.base))
    + (if Boosted(premium, income) then Value(HighIncomeBoost, d.boost) else 0)
    + (if d.outlier < OutlierChance then Value(PayOutlier, d.outlierSize) else 0)
  }

  /** Line 126: `max(50, int(abs(amount)))`. At least 50; the whole part of the amount's
      magnitude whenever that is 50 or more, and exactly 50 otherwise. */
  function WillingnessToPay(premium: YesNo, income: int, d: PayDraws): (w: int)
    ensures w >= PayFloor
    ensures Abs(Amount(premium, income, d)) >= 1000 * PayFloor ==>
      1000 * w <= Abs(Amount(premium, income, d)) < 1000 * w + 1000
    ensures Abs(Amount(premium, income, d)) < 1000 * PayFloor ==> w == PayFloor
  {
    Max(PayFloor, TruncThousandths(Abs(Amount(premium, income, d))))
  }

  /** The boost draw matters only to a subscriber with an income above 2,500,000, and the
      outlier deviate only when the outlier draw falls below 15 thousandths. */
  lemma PayDrawsThatMatter(premium: YesNo, income: int, d: PayDraws, z: int)
    ensures !Boosted(premium, income) ==>
      WillingnessToPay(premium, income, d.(boost := z)) == WillingnessToPay(premium, income, d)
    ensures d.outlier >= OutlierChance ==>
      WillingnessToPay(premium, income, d.(outlierSize := z)) == WillingnessToPay(premium, income, d)
  {
  }

  /** Lines 115-126: the Willingness_To_Pay column. */
  method WillingnessColumn(premium: seq<YesNo>, incomes: seq<int>, draws: seq<PayDraws>)
    returns (column: seq<int>)
    requires |incomes| == |premium| && |draws| == |premium|
    ensures |column| == |premium|
    ensures forall i :: 0 <= i < |column| ==>
      column[i] == WillingnessToPay(premium[i], incomes[i], draws[i]) && column[i] >= PayFloor
  {
    column := [];
    for i := 0 to |premium|
      invariant |column| == i
      invariant forall k :: 0 <= k < i ==> column[k] == WillingnessToPay(premium[k], incomes[k], draws[k])
    {
      var d := draws[i];
      var amount;
      if premium[i] == Yes {
        amount := Value(SubscriberPay, d.base);
        if incomes[i] > Premium.IncomeThreshold {
          amount := amount + Value(HighIncomeBoost, d.boost);
        }
      } else {
        amount := Value(FreePay, d.base);
      }
      if d.outlier < OutlierChance {
        amount := amount + Value(PayOutlier, d.outlierSize);
      }
      column := column + [Max(PayFloor, TruncThousandths(Abs(amount)))];
    }
  }

  /** Lines 131-136: the subscriber branch first, then the non-user branch, then the rest. */
  function ImportanceDistribution(premium: YesNo, usesApp: YesNo): (n: Normal) {
    if premium == Yes then SubscriberImportance
    else if usesApp == No then NonUserImportance
    else UserImportance
  }

  /** Lines 154-159: the subscribing user first, then any user, then the rest. */
  function NpsDistribution(usesApp: YesNo, premium: YesNo): (n: Normal) {
    if usesApp == Yes && premium == Yes then SubscriberNps
    else if usesApp == Yes then UserNps
    else NonUserNps
  }

  /** Fitness_Importance_1_10 of one respondent. */
  function Importance(premium: YesNo, usesApp: YesNo, z: int): (r: int)
    ensures ScoreMin <= r <= ScoreMax
  {
    Score(ImportanceDistribution(premium, usesApp), z)
  }

  /** NPS_Recommend_1_10 of one respondent. */
  function Nps(usesApp: YesNo, premium: YesNo, z: int): (r: int)
    ensures ScoreMin <= r <= ScoreMax
  {
    Score(NpsDistribution(usesApp, premium), z)
  }

  /** The two chains differ on the one combination the premium rule excludes, a subscriber
      who does not use the app: importance takes the subscriber branch, NPS the non-user one. */
  lemma BranchPriority()
    ensures ImportanceDistribution(Yes, No) == SubscriberImportance
    ensures NpsDistribution(No, Yes) == NonUserNps
    ensures forall u :: ImportanceDistribution(Yes, u) == SubscriberImportance
    ensures forall p :: NpsDistribution(No, p) == NonUserNps
  {
  }

  /** `x` scores at least as high as `y`: it is no smaller, or it already scores 10, or `y`
      scores only 1. */
  lemma ScoreAtLeast(x: int, y: int)
    requires x >= y || x >= 1000 * ScoreMax || y < 1000 * ScoreMin
    ensures Clip(TruncThousandths(x), 1, 10) >= Clip(TruncThousandths(y), 1, 10)
  {
    if x >= y { ScoreMonotone(y, x); }
  }

  /** On the same deviate, a subscriber rates fitness at least as important as another app
      user, who rates it at least as important as a non-user. */
  lemma ImportanceOrder(z: int)
    ensures Score(SubscriberImportance, z) >= Score(UserImportance, z) >= Score(NonUserImportance, z)
  {
    ScoreAtLeast(Value(SubscriberImportance, z), Value(UserImportance, z));
    ScoreAtLeast(Value(UserImportance, z), Value(NonUserImportance, z));
  }

  /** On the same deviate, a subscribing user recommends at least as strongly as another user,
      who recommends at least as strongly as a non-user. */
  lemma NpsOrder(z: int)
    ensures Score(SubscriberNps, z) >= Score(UserNps, z) >= Score(NonUserNps, z)
  {
    ScoreAtLeast(Value(SubscriberNps, z), Value(UserNps, z));
    ScoreAtLeast(Value(UserNps, z), Value(NonUserNps, z));
  }

  /** Lines 129-137: the Fitness_Importance_1_10 column. */
  method ImportanceColumn(premium: seq<YesNo>, usesApp: seq<YesNo>, zs: seq<int>)
    returns (column: seq<int>)
    requires |usesApp| == |premium| && |zs| == |premium|
    ensures |column| == |premium|
    ensures forall i :: 0 <= i < |column| ==>
      column[i] == Importance(premium[i], usesApp[i], zs[i]) && ScoreMin <= column[i] <= ScoreMax
  {
    column := [];
    for i := 0 to |premium|
      invariant |column| == i
      invariant forall k :: 0 <= k < i ==> column[k] == Importance(premium[k], usesApp[k], zs[k])
    {
      var val;
      if premium[i] == Yes {
        val := TruncThousandths(Value(SubscriberImportance, zs[i]));
      } else if usesApp[i] == No {
        val := TruncThousandths(Value(NonUserImportance, zs[i]));
      } else {
        val := TruncThousandths(Value(UserImportance, zs[i]));
      }
      column := column + [Clip(val, ScoreMin, ScoreMax)];
    }
  }

  /** Lines 152-160: the NPS_Recommend_1_10 column. */
  method NpsColumn(usesApp: seq<YesNo>, premium: seq<YesNo>, zs: seq<int>)
    returns (column: seq<int>)
    requires |premium| == |usesApp| && |zs| == |usesApp|
    ensures |column| == |usesApp|
    ensures forall i :: 0 <= i < |column| ==>
      column[i] == Nps(usesApp[i], premium[i], zs[i]) && ScoreMin <= column[i] <= ScoreMax
  {
    column := [];
    for i := 0 to |usesApp|
      invariant |column| == i
      invariant forall k :: 0 <= k < i ==> column[k] == Nps(usesApp[k], premium[k], zs[k])
    {
      var score;
      if usesApp[i] == Yes && premium[i] == Yes {
        score := TruncThousandths(Value(SubscriberNps, zs[i]));
      } else if usesApp[i] == Yes {
        score := TruncThousandths(Value(UserNps, zs[i]));
      } else {
        score := TruncThousandths(Value(NonUserNps, zs[i]));
      }
      column := column + [Clip(score, ScoreMin, ScoreMax)];
    }
  }
}
