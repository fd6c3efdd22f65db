/**
 Subscribed_Premium (app.py:92-105). A respondent who does not use the app, or uses it only
 rarely or never, is not a subscriber. Anyone else subscribes when the uniform draw falls below
 a probability that starts at 14 hundredths and gains a bonus for each strictly exceeded
 threshold: 14 for more than 11000 steps a day, 11 for more than 4 workout days a week, 8 for
 an income above 2,500,000, 8 for more than 1800 calories a day, and 3 for a degree.
 */
module Premium {
  import opened Answers

  const BaseProbability: nat := 14
  const StepsThreshold: int := 11000
  const StepsBonus: nat := 14
  const DaysThreshold: int := 4
  const DaysBonus: nat := 11
  const IncomeThreshold: int := 2500000
  const IncomeBonus: nat := 8
  const CaloriesThreshold: int := 1800
  const CaloriesBonus: nat := 8
  const DegreeBonus: nat := 3
  /** The lowest and highest probability a respondent can be given. */
  const MinProbability: nat := 14
  const MaxProbability: nat := 58

  /** The education levels that earn the degree bonus. */
  predicate HasDegree(education: string) {
    education in ["Graduate", "Postgraduate", "Doctorate"]
  }

  /** What the subscription probability depends on. */
  datatype Profile = Profile(steps: int, workoutDays: int, income: int, calories: int, education: string)

  function Bonus(qualifies: bool, amount: nat): (b: nat) {
    if qualifies then amount else 0
  }

  /** The subscription probability in hundredths, as the sum of the base and the bonuses
      earned. */
  function Probability(p: Profile): (prob: nat)
    ensures MinProbability <= prob <= MaxProbability
  {
    BaseProbability
      + Bonus(p.steps > StepsThreshold, StepsBonus)
      + Bonus(p.workoutDays > DaysThreshold, DaysBonus)
      + Bonus(p.income > IncomeThreshold, IncomeBonus)
      + Bonus(p.calories > CaloriesThreshold, CaloriesBonus)
      + Bonus(HasDegree(p.education), DegreeBonus)
  }

  /** Lines 99-104: `base_prob` built up one condition at a time. */
  method AccumulateProbability(p: Profile) returns (prob: nat)
    ensures prob == Probability(p)
  {
    prob := BaseProbability;
    if p.steps > StepsThreshold { prob := prob + StepsBonus; }
    if p.workoutDays > DaysThreshold { prob := prob + DaysBonus; }
    if p.income > IncomeThreshold { prob := prob + IncomeBonus; }
    if p.calories > CaloriesThreshold { prob := prob + CaloriesBonus; }
    if HasDegree(p.education) { prob := prob + DegreeBonus; }
  }

  /** Profile `b` meets every threshold `a` meets. */
  predicate AtLeast(a: Profile, b: Profile) {
    && (a.steps > StepsThreshold ==> b.steps > StepsThreshold)
    && (a.workoutDays > DaysThreshold ==> b.workoutDays > DaysThreshold)
    && (a.income > IncomeThreshold ==> b.income > IncomeThreshold)
    && (a.calories > CaloriesThreshold ==> b.calories > CaloriesThreshold)
    && (HasDegree(a.education) ==> HasDegree(b.education))
  }

  /** Meeting another condition never lowers the probability. */
  lemma ProbabilityMonotone(a: Profile, b: Profile)
    requires AtLeast(a, b)
    ensures Probability(a) <= Probability(b)
  {
  }

  /** The probability is the base plus exactly the bonuses whose conditions hold: the base is
      reached only when none holds, the maximum only when all hold. */
  lemma ProbabilityExtremes(p: Profile)
    ensures Probability(p) == MinProbability <==>
      !(p.steps > StepsThreshold) && !(p.workoutDays > DaysThreshold) &&
      !(p.income > IncomeThreshold) && !(p.calories > CaloriesThreshold) && !HasDegree(p.education)
    ensures Probability(p) == MaxProbability <==>
      p.steps > StepsThreshold && p.workoutDays > DaysThreshold &&
      p.income > IncomeThreshold && p.calories > CaloriesThreshold && HasDegree(p.education)
  {
  }

  /** Line 95: the respondent is considered for a subscription at all. */
  predicate Eligible(usesApp: YesNo, frequency: Frequency) {
    !(usesApp == No || frequency in {Rarely, Never})
  }

  /** Subscribed_Premium for one respondent, given the uniform draw in hundredths. */
  function Subscribe(usesApp: YesNo, frequency: Frequency, p: Profile, draw: Percent): (r: YesNo)
  {
    if !Eligible(usesApp, frequency) then No
    else if draw < Probability(p) then Yes
    else No
  }

  /** A subscriber uses the app, more often than rarely, and drew below the probability; and
      every such respondent subscribes. */
  lemma SubscribeIff(usesApp: YesNo, frequency: Frequency, p: Profile, draw: Percent)
    ensures Subscribe(usesApp, frequency, p, draw) == Yes <==>
      usesApp == Yes && frequency in {Daily, Weekly, Monthly} && draw < Probability(p)
  {
  }

  /** A draw below 14 always subscribes an eligible respondent, one of 58 or more never does. */
  lemma SubscribeByDraw(usesApp: YesNo, frequency: Frequency, p: Profile, draw: Percent)
    requires Eligible(usesApp, frequency)
    ensures draw < MinProbability ==> Subscribe(usesApp, frequency, p, draw) == Yes
    ensures draw >= MaxProbability ==> Subscribe(usesApp, frequency, p, draw) == No
  {
  }

  /** A respondent who meets more conditions, on the same draw, subscribes if the other does. */
  lemma SubscribeMonotone(usesApp: YesNo, frequency: Frequency, a: Profile, b: Profile, draw: Percent)
    requires AtLeast(a, b)
    requires Subscribe(usesApp, frequency, a, draw) == Yes
    ensures Subscribe(usesApp, frequency, b, draw) == Yes
  {
    ProbabilityMonotone(a, b);
  }

  /** Lines 93-105: the Subscribed_Premium column, one respondent after another. */
  method SubscribedPremiumColumn(usesApp: seq<YesNo>, frequency: seq<Frequency>,
                                 profiles: seq<Profile>, draws: seq<Percent>)
    returns (column: seq<YesNo>)
    requires |frequency| == |usesApp| && |profiles| == |usesApp| && |draws| == |usesApp|
    ensures |column| == |usesApp|
    ensures forall i :: 0 <= i < |column| ==>
      column[i] == Subscribe(usesApp[i], frequency[i], profiles[i], draws[i])
  {
    column := [];
    for i := 0 to |usesApp|
      invariant |column| == i
      invariant forall k :: 0 <= k < i ==>
        column[k] == Subscribe(usesApp[k], frequency[k], profiles[k], draws[k])
    {
      if usesApp[i] == No || frequency[i] == Rarely || frequency[i] == Never {
        column := column + [No];
      } else {
        var prob := AccumulateProbability(profiles[i]);
        column := column + [if draws[i] < prob then Yes else No];
      }
    }
  }
}
