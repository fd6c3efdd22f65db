/**
 The answers that exist only for app users (app.py:78-90, 107-112, 162-167): Features_Used,
 App_Usage_Frequency, Motivators_For_Upgrade, Content_Engaged and
 Interested_In_Group_Challenges. For a respondent who does not use the app each takes its
 inactive value ("None", "Never" or "No"); for a user it is drawn.
 */
module AppFields {
  import opened Answers
  import opened Strings
  import opened Sampling

  /** The inactive value of the multi-value and content answers. */
  const Inactive: string := "None"

  /** `feature_options[:-1]`, the options without the "None" placeholder. */
  const FeatureOptions: seq<string> :=
    ["Step Tracker", "Workout Plans", "Diet Tracking", "Social Community", "Challenges", "Progress Tracking"]
  /** The weights of line 81, in hundredths. They add up to 97, not 100. */
  const FeatureWeights: seq<int> := [25, 18, 18, 10, 13, 13]
  const FeaturesMin: int := 1
  const FeaturesMax: int := 4

  /** `motivation_options[:-1]`. */
  const MotivatorOptions: seq<string> :=
    ["Personalized Plans", "Ad-free Experience", "Advanced Analytics", "1:1 Coach", "Social Competitions", "Custom Diet Plans"]
  const MotivatorsMin: int := 1
  const MotivatorsMax: int := 3

  const FrequencyOptions: seq<Frequency> := [Daily, Weekly, Monthly, Rarely, Never]
  const FrequencyWeights: seq<nat> := [69, 15, 8, 5, 3]

  const ContentOptions: seq<string> := ["Video Workouts", "Articles", "Community Posts", "Live Classes", "Challenges"]

  const GroupOptions: seq<YesNo> := [Yes, No]
  const GroupWeights: seq<nat> := [63, 37]

  /** A multi-value cell read back by splitting on ", ": between `lo` and `hi` distinct
      options, each one of `options`. */
  predicate MultiValue(cell: string, options: seq<string>, lo: int, hi: int) {
    var parts := Split(cell);
    lo <= |parts| <= hi && Distinct(parts) && forall k :: 0 <= k < |parts| ==> parts[k] in options
  }

  lemma FeatureWeightsTotal()
    ensures Sum(FeatureWeights) == 97
  {
    var w := FeatureWeights;
    assert w[1..][1..][1..][1..][1..][1..] == [];
  }

  /** Line 81 as written: numpy rejects weights that do not sum to 1, so every app user's
      `multi_select` call raises, whatever the draws. */
  function FeaturesAsWritten(usesApp: YesNo, draw: SelectDraw): (cell: Result<string>) {
    if usesApp == Yes
    then MultiSelect(FeatureOptions, FeaturesMin, Some(FeaturesMax), Probabilities(FeatureWeights), draw)
    else Ok(Inactive)
  }

  lemma FeatureWeightsRejected(draw: SelectDraw)
    ensures FeaturesAsWritten(Yes, draw) == Err(ProbabilitiesDoNotSumToOne)
  {
    FeatureWeightsTotal();
    var hi := MaxItems(FeatureOptions, Some(FeaturesMax));
    assert Choice(|FeatureOptions|, Count(FeaturesMin, hi, draw.count), Probabilities(FeatureWeights), draw.picks)
        == Err(ProbabilitiesDoNotSumToOne);
  }

  /** With the weights read as relative weights, the features call is always accepted and may
      choose any of the six features. */
  lemma FeatureWeightsAccepted()
    ensures Accepted(Relative(FeatureWeights), |FeatureOptions|)
    ensures Pool(Relative(FeatureWeights), |FeatureOptions|) == Range(|FeatureOptions|)
  {
    FeatureWeightsTotal();
    PositiveAll(FeatureWeights);
  }

  lemma OptionsReadable()
    ensures forall k :: 0 <= k < |FeatureOptions| ==> CommaFree(FeatureOptions[k])
    ensures forall k :: 0 <= k < |MotivatorOptions| ==> CommaFree(MotivatorOptions[k])
    ensures Distinct(FeatureOptions) && Distinct(MotivatorOptions)
  {
  }

  /** Features_Used (lines 80-83), with the weights of line 81 normalised by their total. */
  function Features(usesApp: YesNo, draw: SelectDraw): (cell: string)
    ensures usesApp == No ==> cell == Inactive
    ensures usesApp == Yes ==> MultiValue(cell, FeatureOptions, FeaturesMin, FeaturesMax)
  {
    if usesApp == Yes then
      FeatureWeightsAccepted();
      OptionsReadable();
      var cell := MultiSelect(FeatureOptions, FeaturesMin, Some(FeaturesMax), Relative(FeatureWeights), draw);
      MultiSelectParts(FeatureOptions, FeaturesMin, Some(FeaturesMax), Relative(FeatureWeights), draw);
      cell.value
    else Inactive
  }

  /** Motivators_For_Upgrade (lines 109-112): one to three distinct options, uniformly. */
  function Motivators(usesApp: YesNo, draw: SelectDraw): (cell: string)
    ensures usesApp == No ==> cell == Inactive
    ensures usesApp == Yes ==> MultiValue(cell, MotivatorOptions, MotivatorsMin, MotivatorsMax)
  {
    if usesApp == Yes then
      OptionsReadable();
      var cell := MultiSelect(MotivatorOptions, MotivatorsMin, Some(MotivatorsMax), Uniform, draw);
      MultiSelectParts(MotivatorOptions, MotivatorsMin, Some(MotivatorsMax), Uniform, draw);
      cell.value
    else Inactive
  }

  lemma FrequencyWeightsTotal()
    ensures Sum(FrequencyWeights) == 100
    ensures Sum(FrequencyWeights[..0]) == 0 && Sum(FrequencyWeights[..1]) == 69
    ensures Sum(FrequencyWeights[..2]) == 84 && Sum(FrequencyWeights[..3]) == 92
    ensures Sum(FrequencyWeights[..4]) == 97
  {
    var w := FrequencyWeights;
    assert w[1..][1..][1..][1..][1..] == [];
    assert w[..1] == [69] && w[..2] == [69, 15] && w[..3] == [69, 15, 8] && w[..4] == [69, 15, 8, 5];
    assert [69, 15, 8, 5][1..] == [15, 8, 5] && [15, 8, 5][1..] == [8, 5] && [8, 5][1..] == [5];
    assert [69, 15, 8][1..] == [15, 8] && [15, 8][1..] == [8] && [69, 15][1..] == [15];
  }

  /** App_Usage_Frequency (lines 87-90). */
  function UsageFrequency(usesApp: YesNo, draw: Percent): (f: Frequency)
    ensures usesApp == No ==> f == Never
  {
    if usesApp == Yes then
      FrequencyWeightsTotal();
      FrequencyOptions[PickWeighted(FrequencyWeights, draw)]
    else Never
  }

  /** An app user's frequency by the draw in hundredths: 69 in a hundred answer "Daily", 15
      "Weekly", 8 "Monthly", 5 "Rarely" and 3 "Never". */
  lemma UsageFrequencyShares(draw: Percent)
    ensures UsageFrequency(Yes, draw) == Daily <==> draw < 69
    ensures UsageFrequency(Yes, draw) == Weekly <==> 69 <= draw < 84
    ensures UsageFrequency(Yes, draw) == Monthly <==> 84 <= draw < 92
    ensures UsageFrequency(Yes, draw) == Rarely <==> 92 <= draw < 97
    ensures UsageFrequency(Yes, draw) == Never <==> 97 <= draw
  {
    FrequencyWeightsTotal();
    var i := PickWeighted(FrequencyWeights, draw);
    assert i == 0 || i == 1 || i == 2 || i == 3 || i == 4;
  }

  /** Content_Engaged (line 164): one content type, uniformly. */
  function Content(usesApp: YesNo, draw: nat): (cell: string)
    ensures usesApp == No ==> cell == Inactive
    ensures usesApp == Yes ==> cell in ContentOptions
  {
    if usesApp == Yes then ContentOptions[draw % |ContentOptions|] else Inactive
  }

  /** Interested_In_Group_Challenges (line 167). */
  function GroupChallenges(usesApp: YesNo, draw: Percent): (answer: YesNo)
    ensures usesApp == No ==> answer == No
  {
    if usesApp == Yes then
      assert GroupWeights[1..][1..] == [];
      GroupOptions[PickWeighted(GroupWeights, draw)]
    else No
  }

  /** An app user is interested in 63 cases in a hundred. */
  lemma GroupChallengesShare(draw: Percent)
    ensures GroupChallenges(Yes, draw) == Yes <==> draw < 63
  {
    assert GroupWeights[1..][1..] == [];
    assert GroupWeights[..1] == [63];
    var i := PickWeighted(GroupWeights, draw);
    assert i == 0 || i == 1;
  }
}
