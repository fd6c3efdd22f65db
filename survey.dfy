/**
 One survey record per respondent, in the 25-column layout of app.py:174-200, and the
 generator that fills the table column by column in the order app.py does.

 Every random value a respondent needs is an input (`Respondent`): the pre-clip whole
 numbers of the normal, lognormal and gamma draws, the uniform draws in hundredths that decide
 the weighted categorical answers, and the draws of the multi-select and score steps.
 */
module Survey {
  import opened Answers
  import opened Numeric
  import opened Sampling
  import AppFields
  import Premium
  import Scores
  import Income

  // The closed intervals of the clipped columns (lines 28, 58, 69, 73).
  const AgeMin: int := 15
  const AgeMax: int := 70
  const StepsMin: int := 500
  const StepsMax: int := 25000
  const DurationMin: int := 5
  const DurationMax: int := 180
  const CaloriesMin: int := 400
  const CaloriesMax: int := 3000

  // The weighted categorical columns, their options and their weights in hundredths.
  const GenderOptions: seq<string> := ["Male", "Female", "Other", "Prefer not to say"]
  const GenderWeights: seq<nat> := [52, 45, 2, 1]
  const CityOptions: seq<string> := ["Metro", "Urban", "Semi-Urban", "Rural"]
  const CityWeights: seq<nat> := [45, 32, 13, 10]
  const EducationOptions: seq<string> := ["High School", "Graduate", "Postgraduate", "Doctorate", "Other"]
  const EducationWeights: seq<nat> := [12, 56, 27, 3, 2]
  const OccupationOptions: seq<string> := ["Student", "Professional", "Homemaker", "Retired", "Other"]
  const OccupationWeights: seq<nat> := [13, 65, 12, 6, 4]
  /** The workout-day options are 0 to 7, each its own index in this list. */
  const DaysWeights: seq<nat> := [9, 15, 17, 19, 14, 11, 8, 7]
  const WorkoutOptions: seq<string> := ["Cardio", "Strength Training", "Yoga", "Sports", "Mixed", "None"]
  const WorkoutWeights: seq<nat> := [31, 23, 17, 7, 14, 8]
  const UsesOptions: seq<YesNo> := [Yes, No]
  const UsesWeights: seq<nat> := [82, 18]
  const ChallengeOptions: seq<string> := ["Lack of Time", "Motivation", "Guidance", "Cost", "Health Issues", "Other"]
  const ChallengeWeights: seq<nat> := [27, 22, 18, 14, 11, 8]
  const MotivatedByOptions: seq<string> := ["Family", "Friends", "Influencers", "Self", "None"]
  const MotivatedByWeights: seq<nat> := [29, 18, 9, 41, 3]
  const DeviceOptions: seq<string> := ["Smartphone", "Fitness Band", "Smartwatch", "Manual Entry", "None"]
  const DeviceWeights: seq<nat> := [58, 17, 18, 5, 2]
  const GoalOptions: seq<string> := ["Weight Loss", "Muscle Gain", "General Wellness", "Athletic Training", "Rehabilitation", "None"]
  const GoalWeights: seq<nat> := [36, 21, 27, 8, 6, 2]

  // Every weight list of a categorical column adds up to one.
  lemma GenderTotal()
    ensures Sum(GenderWeights) == 100
  {
  }

  lemma CityTotal()
    ensures Sum(CityWeights) == 100
  {
  }

  lemma EducationTotal()
    ensures Sum(EducationWeights) == 100
  {
  }

  lemma OccupationTotal()
    ensures Sum(OccupationWeights) == 100
  {
  }

  lemma DaysTotal()
    ensures Sum(DaysWeights) == 100
  {
  }

  lemma WorkoutTotal()
    ensures Sum(WorkoutWeights) == 100
  {
  }

  lemma UsesTotal()
    ensures Sum(UsesWeights) == 100
  {
  }

  lemma ChallengeTotal()
    ensures Sum(ChallengeWeights) == 100
  {
  }

  lemma MotivatedByTotal()
    ensures Sum(MotivatedByWeights) == 100
  {
  }

  lemma DeviceTotal()
    ensures Sum(DeviceWeights) == 100
  {
  }

  lemma GoalTotal()
    ensures Sum(GoalWeights) == 100
  {
  }

  /** `np.random.choice(options, p=weights)` for weights in hundredths that add up to one:
      the option whose share of [0, 100) holds the draw. */
  function Categorical<T>(options: seq<T>, weights: seq<nat>, draw: Percent): (r: T)
    requires |options| == |weights| && Sum(weights) == 100
    ensures r in options
  {
    options[PickWeighted(weights, draw)]
  }

  /** Gender (line 31). */
  function Gender(draw: Percent): (answer: string)
    ensures answer in GenderOptions
  {
    GenderTotal();
    Categorical(GenderOptions, GenderWeights, draw)
  }

  /** City_Type (line 34). */
  function CityType(draw: Percent): (answer: string)
    ensures answer in CityOptions
  {
    CityTotal();
    Categorical(CityOptions, CityWeights, draw)
  }

  /** Education_Level (lines 44-46). */
  function EducationLevel(draw: Percent): (answer: string)
    ensures answer in EducationOptions
  {
    EducationTotal();
    Categorical(EducationOptions, EducationWeights, draw)
  }

  /** Occupation (lines 49-51). */
  function Occupation(draw: Percent): (answer: string)
    ensures answer in OccupationOptions
  {
    OccupationTotal();
    Categorical(OccupationOptions, OccupationWeights, draw)
  }

  /** Preferred_Workout_Type (lines 64-65). */
  function WorkoutType(draw: Percent): (answer: string)
    ensures answer in WorkoutOptions
  {
    WorkoutTotal();
    Categorical(WorkoutOptions, WorkoutWeights, draw)
  }

  /** Uses_Fitness_App (line 76). */
  function UsesApp(draw: Percent): (answer: YesNo)
    ensures answer in UsesOptions
  {
    UsesTotal();
    Categorical(UsesOptions, UsesWeights, draw)
  }

  /** Biggest_Challenge (lines 140-141). */
  function Challenge(draw: Percent): (answer: string)
    ensures answer in ChallengeOptions
  {
    ChallengeTotal();
    Categorical(ChallengeOptions, ChallengeWeights, draw)
  }

  /** Fitness_Motivated_By (lines 144-145). */
  function MotivatedBy(draw: Percent): (answer: string)
    ensures answer in MotivatedByOptions
  {
    MotivatedByTotal();
    Categorical(MotivatedByOptions, MotivatedByWeights, draw)
  }

  /** Preferred_Device (lines 148-149). */
  function Device(draw: Percent): (answer: string)
    ensures answer in DeviceOptions
  {
    DeviceTotal();
    Categorical(DeviceOptions, DeviceWeights, draw)
  }

  /** Fitness_Goal (lines 170-171). */
  function Goal(draw: Percent): (answer: string)
    ensures answer in GoalOptions
  {
    GoalTotal();
    Categorical(GoalOptions, GoalWeights, draw)
  }

  /** Workout_Days_Per_Week (line 61): the options 0 to 7 are their own positions, so the
      chosen position is the answer. */
  function WorkoutDays(draw: Percent): (days: nat)
    ensures days <= 7
  {
    DaysTotal();
    PickWeighted(DaysWeights, draw)
  }

  /** The draws and pre-clip values of one respondent. */
  datatype Respondent = Respondent(
    agePre: int, genderDraw: Percent, cityDraw: Percent, incomeBase: nat,
    educationDraw: Percent, occupationDraw: Percent, stepsPre: int, daysDraw: Percent,
    workoutDraw: Percent, durationPre: int, caloriesPre: int, usesDraw: Percent,
    features: SelectDraw, frequencyDraw: Percent, premiumDraw: Percent, motivators: SelectDraw,
    pay: Scores.PayDraws, importanceZ: int, challengeDraw: Percent, motivatedByDraw: Percent,
    deviceDraw: Percent, npsZ: int, contentDraw: nat, groupDraw: Percent, goalDraw: Percent)

  /** One row of the table, its fields in column order. */
  datatype Record = Record(
    age: int, gender: string, cityType: string, income: int, education: string,
    occupation: string, steps: int, workoutDays: int, workoutType: string, duration: int,
    calories: int, usesApp: YesNo, features: string, frequency: Frequency, premium: YesNo,
    motivators: string, willingness: int, importance: int, challenge: string,
    motivatedBy: string, device: string, nps: int, content: string, groupChallenges: YesNo,
    goal: string)

  const Header: seq<string> := [
    "Age", "Gender", "City_Type", "Annual_Income", "Education_Level", "Occupation",
    "Steps_Per_Day", "Workout_Days_Per_Week", "Preferred_Workout_Type", "Workout_Duration_Min",
    "Calories_Burned_Per_Day", "Uses_Fitness_App", "Features_Used", "App_Usage_Frequency",
    "Subscribed_Premium", "Motivators_For_Upgrade", "Willingness_To_Pay",
    "Fitness_Importance_1_10", "Biggest_Challenge", "Fitness_Motivated_By", "Preferred_Device",
    "NPS_Recommend_1_10", "Content_Engaged", "Interested_In_Group_Challenges", "Fitness_Goal"]

  /** A written cell: a whole number or a text. */
  datatype Cell = Number(n: int) | Text(s: string)

  /** The cell the dictionary of lines 174-200 puts under a column name, if the name is one
      of its keys. */
  function Field(r: Record, name: string): (cell: Option<Cell>) {
    match name
    case "Age" => Some(Number(r.age))
    case "Gender" => Some(Text(r.gender))
    case "City_Type" => Some(Text(r.cityType))
    case "Annual_Income" => Some(Number(r.income))
    case "Education_Level" => Some(Text(r.education))
    case "Occupation" => Some(Text(r.occupation))
    case "Steps_Per_Day" => Some(Number(r.steps))
    case "Workout_Days_Per_Week" => Some(Number(r.workoutDays))
    case "Preferred_Workout_Type" => Some(Text(r.workoutType))
    case "Workout_Duration_Min" => Some(Number(r.duration))
    case "Calories_Burned_Per_Day" => Some(Number(r.calories))
    case "Uses_Fitness_App" => Some(Text(r.usesApp.Text()))
    case "Features_Used" => Some(Text(r.features))
    case "App_Usage_Frequency" => Some(Text(r.frequency.Text()))
    case "Subscribed_Premium" => Some(Text(r.premium.Text()))
    case "Motivators_For_Upgrade" => Some(Text(r.motivators))
    case "Willingness_To_Pay" => Some(Number(r.willingness))
    case "Fitness_Importance_1_10" => Some(Number(r.importance))
    case "Biggest_Challenge" => Some(Text(r.challenge))
    case "Fitness_Motivated_By" => Some(Text(r.motivatedBy))
    case "Preferred_Device" => Some(Text(r.device))
    case "NPS_Recommend_1_10" => Some(Number(r.nps))
    case "Content_Engaged" => Some(Text(r.content))
    case "Interested_In_Group_Challenges" => Some(Text(r.groupChallenges.Text()))
    case "Fitness_Goal" => Some(Text(r.goal))
    case _ => None
  }

  /** The cells of a record, under `Header`. */
  function Cells(r: Record): (cells: seq<Cell>)
    ensures |cells| == |Header| == 25
  {
    [ Number(r.age), Text(r.gender), Text(r.cityType), Number(r.income), Text(r.education),
      Text(r.occupation), Number(r.steps), Number(r.workoutDays), Text(r.workoutType),
      Number(r.duration), Number(r.calories), Text(r.usesApp.Text()), Text(r.features),
      Text(r.frequency.Text()), Text(r.premium.Text()), Text(r.motivators),
      Number(r.willingness), Number(r.importance), Text(r.challenge), Text(r.motivatedBy),
      Text(r.device), Number(r.nps), Text(r.content), Text(r.groupChallenges.Text()),
      Text(r.goal) ]
  }

  /** The cell in position k is the field that the name `Header[k]` labels. */
  lemma CellsLabelled(r: Record)
    ensures forall k :: 0 <= k < |Header| ==> Field(r, Header[k]) == Some(Cells(r)[k])
  {
    CellsLabelledFront(r);
    CellsLabelledBack(r);
  }

  lemma CellsLabelledFront(r: Record)
    ensures forall k :: 0 <= k < 12 ==> Field(r, Header[k]) == Some(Cells(r)[k])
  {
  }

  lemma CellsLabelledBack(r: Record)
    ensures forall k :: 12 <= k < 25 ==> Field(r, Header[k]) == Some(Cells(r)[k])
  {
  }

  /** The column names are distinct, so every column is found by its name. */
  lemma HeaderDistinct()
    ensures Distinct(Header)
  {
  }

  /** The record of one respondent, given the respondent's income after the outlier step. */
  function RecordOf(r: Respondent, income: int): (rec: Record) {
    var steps := Clip(r.stepsPre, StepsMin, StepsMax);
    var days := WorkoutDays(r.daysDraw);
    var calories := Clip(r.caloriesPre, CaloriesMin, CaloriesMax);
    var education := EducationLevel(r.educationDraw);
    var uses := UsesApp(r.usesDraw);
    var frequency := AppFields.UsageFrequency(uses, r.frequencyDraw);
    var premium := Premium.Subscribe(uses, frequency,
      Premium.Profile(steps, days, income, calories, education), r.premiumDraw);
    Record(
      Clip(r.agePre, AgeMin, AgeMax),
      Gender(r.genderDraw),
      CityType(r.cityDraw),
      income, education,
      Occupation(r.occupationDraw),
      steps, days,
      WorkoutType(r.workoutDraw),
      Clip(r.durationPre, DurationMin, DurationMax),
      calories, uses,
      AppFields.Features(uses, r.features),
      frequency, premium,
      AppFields.Motivators(uses, r.motivators),
      Scores.WillingnessToPay(premium, income, r.pay),
      Scores.Importance(premium, uses, r.importanceZ),
      Challenge(r.challengeDraw),
      MotivatedBy(r.motivatedByDraw),
      Device(r.deviceDraw),
      Scores.Nps(uses, premium, r.npsZ),
      AppFields.Content(uses, r.contentDraw),
      AppFields.GroupChallenges(uses, r.groupDraw),
      Goal(r.goalDraw))
  }

  /** What holds of every record, whatever the draws. */
  predicate WellFormed(rec: Record) {
    Bounded(rec) && Categories(rec) && AppAnswers(rec)
  }

  /** The clipped columns lie in their intervals, the scores in [1, 10], the payment is at
      least 50 and the income is not negative. */
  predicate Bounded(rec: Record) {
    && AgeMin <= rec.age <= AgeMax
    && StepsMin <= rec.steps <= StepsMax
    && DurationMin <= rec.duration <= DurationMax
    && CaloriesMin <= rec.calories <= CaloriesMax
    && rec.income >= 0
    && rec.willingness >= Scores.PayFloor
    && Scores.ScoreMin <= rec.importance <= Scores.ScoreMax
    && Scores.ScoreMin <= rec.nps <= Scores.ScoreMax
  }

  /** Every categorical answer is one of its options. */
  predicate Categories(rec: Record) {
    && rec.gender in GenderOptions && rec.cityType in CityOptions
    && rec.education in EducationOptions && rec.occupation in OccupationOptions
    && 0 <= rec.workoutDays <= 7 && rec.workoutType in WorkoutOptions
    && rec.challenge in ChallengeOptions && rec.motivatedBy in MotivatedByOptions
    && rec.device in DeviceOptions && rec.goal in GoalOptions
  }

  /** The app-only columns: inactive values for a non-user, drawn answers for a user, and a
      subscriber always a user who uses the app more often than rarely. */
  predicate AppAnswers(rec: Record) {
    && (rec.usesApp == No ==>
          && rec.features == AppFields.Inactive && rec.frequency == Never
          && rec.premium == No && rec.motivators == AppFields.Inactive
          && rec.content == AppFields.Inactive && rec.groupChallenges == No)
    && (rec.usesApp == Yes ==>
          && AppFields.MultiValue(rec.features, AppFields.FeatureOptions,
                                  AppFields.FeaturesMin, AppFields.FeaturesMax)
          && AppFields.MultiValue(rec.motivators, AppFields.MotivatorOptions,
                                  AppFields.MotivatorsMin, AppFields.MotivatorsMax)
          && rec.content in AppFields.ContentOptions)
    && (rec.premium == Yes ==> rec.usesApp == Yes && rec.frequency in {Daily, Weekly, Monthly})
  }

  lemma RecordWellFormed(r: Respondent, income: int)
    requires income >= 0
    ensures WellFormed(RecordOf(r, income))
  {
    RecordBounded(r, income);
    RecordCategories(r, income);
    RecordAppAnswers(r, income);
  }

  lemma RecordBounded(r: Respondent, income: int)
    requires income >= 0
    ensures Bounded(RecordOf(r, income))
  {
  }

  lemma RecordCategories(r: Respondent, income: int)
    ensures Categories(RecordOf(r, income))
  {
  }

  lemma RecordAppAnswers(r: Respondent, income: int)
    ensures AppAnswers(RecordOf(r, income))
  {
    var rec := RecordOf(r, income);
    var p := Premium.Profile(rec.steps, rec.workoutDays, income, rec.calories, rec.education);
    assert rec.premium == Premium.Subscribe(rec.usesApp, rec.frequency, p, r.premiumDraw);
    Premium.SubscribeIff(rec.usesApp, rec.frequency, p, r.premiumDraw);
  }

  /** The app-only columns and where they sit in the header. */
  const UsesColumn: nat := 11
  const FeaturesColumn: nat := 12
  const FrequencyColumn: nat := 13
  const PremiumColumn: nat := 14
  const MotivatorsColumn: nat := 15
  const ContentColumn: nat := 22
  const GroupColumn: nat := 23

  lemma AppColumnNames()
    ensures Header[UsesColumn] == "Uses_Fitness_App"
    ensures Header[FeaturesColumn] == "Features_Used"
    ensures Header[FrequencyColumn] == "App_Usage_Frequency"
    ensures Header[PremiumColumn] == "Subscribed_Premium"
    ensures Header[MotivatorsColumn] == "Motivators_For_Upgrade"
    ensures Header[ContentColumn] == "Content_Engaged"
    ensures Header[GroupColumn] == "Interested_In_Group_Challenges"
  {
  }

  /** The cells a non-user's record writes under the app-only columns. */
  lemma InactiveCells(rec: Record)
    requires AppAnswers(rec) && rec.usesApp == No
    ensures Cells(rec)[UsesColumn] == Text("No")
    ensures Cells(rec)[FeaturesColumn] == Text("None")
    ensures Cells(rec)[FrequencyColumn] == Text("Never")
    ensures Cells(rec)[PremiumColumn] == Text("No")
    ensures Cells(rec)[MotivatorsColumn] == Text("None")
    ensures Cells(rec)[ContentColumn] == Text("None")
    ensures Cells(rec)[GroupColumn] == Text("No")
  {
  }

  /** The incomes of lines 37-41 before the outliers are injected. */
  function BaseIncomes(rs: seq<Respondent>): (incomes: seq<int>)
    ensures |incomes| == |rs|
    ensures forall i :: 0 <= i < |rs| ==> incomes[i] == rs[i].incomeBase
  {
    seq(|rs|, i requires 0 <= i < |rs| => rs[i].incomeBase)
  }

  /** The record of every respondent, given the incomes after the outlier step. */
  function Rows(rs: seq<Respondent>, incomes: seq<int>): (records: seq<Record>)
    requires |incomes| == |rs|
    ensures |records| == |rs|
  {
    seq(|rs|, i requires 0 <= i < |rs| => RecordOf(rs[i], incomes[i]))
  }

  /** Every row is well formed when no income is negative. */
  lemma RowsWellFormed(rs: seq<Respondent>, incomes: seq<int>)
    requires |incomes| == |rs|
    requires forall i :: 0 <= i < |incomes| ==> incomes[i] >= 0
    ensures forall i :: 0 <= i < |rs| ==> WellFormed(Rows(rs, incomes)[i])
  {
    forall i | 0 <= i < |rs| ensures WellFormed(Rows(rs, incomes)[i]) {
      RecordWellFormed(rs[i], incomes[i]);
    }
  }

  /** A generated table and the outlier injection it went through. */
  datatype Table = Table(records: seq<Record>, outliers: Income.Injection)

  /** Lines 24-200: the incomes with their outliers (numpy refuses to choose 8 outliers among
      fewer than 8 respondents, so a smaller survey fails), then the table. */
  method Generate(rs: seq<Respondent>, outlierPicks: nat -> nat, factorDraws: nat -> nat)
    returns (outcome: Result<Table>)
    ensures outcome.Err? <==> |rs| < Income.OutlierCount
    ensures outcome.Ok? ==>
      var t := outcome.value;
      && |t.outliers.indices| == Income.OutlierCount && Distinct(t.outliers.indices)
      && (forall k :: 0 <= k < |t.outliers.indices| ==> t.outliers.indices[k] < |rs|)
      && t.outliers.indices == Choice(|rs|, Income.OutlierCount, Uniform, outlierPicks).value
      && t.outliers.factors == Income.Factors(factorDraws)
    ensures outcome.Ok? ==>
      var t := outcome.value;
      t.records == Rows(rs, Income.Scaled(BaseIncomes(rs), t.outliers.indices, t.outliers.factors))
    ensures outcome.Ok? ==> forall i :: 0 <= i < |rs| ==> WellFormed(outcome.value.records[i])
  {
    var base := BaseIncomes(rs);
    var injected, incomes := Income.WithOutliers(base, outlierPicks, factorDraws);
    if injected.Err? {
      return Err(injected.error);
    }
    var injection := injected.value;
    var records := Columns(rs, incomes);
    ScaledNonNegative(base, injection.indices, injection.factors);
    RowsWellFormed(rs, incomes);
    outcome := Ok(Table(records, injection));
  }

  /** The columns of lines 24-171 in the order app.py computes them, given the final incomes,
      and the rows of lines 174-200 read across them. */
  method Columns(rs: seq<Respondent>, incomes: seq<int>) returns (records: seq<Record>)
    requires |incomes| == |rs|
    ensures records == Rows(rs, incomes)
  {
    var n := |rs|;
    var ages := ClipColumn(seq(n, i requires 0 <= i < n => rs[i].agePre), AgeMin, AgeMax);
    var genders := seq(n, i requires 0 <= i < n => Gender(rs[i].genderDraw));
    var cities := seq(n, i requires 0 <= i < n => CityType(rs[i].cityDraw));
    var education := seq(n, i requires 0 <= i < n => EducationLevel(rs[i].educationDraw));
    var occupation := seq(n, i requires 0 <= i < n => Occupation(rs[i].occupationDraw));
    var steps := ClipColumn(seq(n, i requires 0 <= i < n => rs[i].stepsPre), StepsMin, StepsMax);
    var days := seq(n, i requires 0 <= i < n => WorkoutDays(rs[i].daysDraw));
    var workoutType := seq(n, i requires 0 <= i < n => WorkoutType(rs[i].workoutDraw));
    var durations := ClipColumn(seq(n, i requires 0 <= i < n => rs[i].durationPre), DurationMin, DurationMax);
    var calories := ClipColumn(seq(n, i requires 0 <= i < n => rs[i].caloriesPre), CaloriesMin, CaloriesMax);
    var uses := seq(n, i requires 0 <= i < n => UsesApp(rs[i].usesDraw));
    var features := seq(n, i requires 0 <= i < n => AppFields.Features(uses[i], rs[i].features));
    var frequency := seq(n, i requires 0 <= i < n => AppFields.UsageFrequency(uses[i], rs[i].frequencyDraw));

    var profiles := seq(n, i requires 0 <= i < n =>
      Premium.Profile(steps[i], days[i], incomes[i], calories[i], education[i]));
    var premium := Premium.SubscribedPremiumColumn(uses, frequency, profiles,
      seq(n, i requires 0 <= i < n => rs[i].premiumDraw));
    var motivators := seq(n, i requires 0 <= i < n => AppFields.Motivators(uses[i], rs[i].motivators));
    var willingness := Scores.WillingnessColumn(premium, incomes, seq(n, i requires 0 <= i < n => rs[i].pay));
    var importance := Scores.ImportanceColumn(premium, uses, seq(n, i requires 0 <= i < n => rs[i].importanceZ));
    var challenge := seq(n, i requires 0 <= i < n => Challenge(rs[i].challengeDraw));
    var motivatedBy := seq(n, i requires 0 <= i < n => MotivatedBy(rs[i].motivatedByDraw));
    var device := seq(n, i requires 0 <= i < n => Device(rs[i].deviceDraw));
    var nps := Scores.NpsColumn(uses, premium, seq(n, i requires 0 <= i < n => rs[i].npsZ));
    var content := seq(n, i requires 0 <= i < n => AppFields.Content(uses[i], rs[i].contentDraw));
    var group := seq(n, i requires 0 <= i < n => AppFields.GroupChallenges(uses[i], rs[i].groupDraw));
    var goals := seq(n, i requires 0 <= i < n => Goal(rs[i].goalDraw));

    records := seq(n, i requires 0 <= i < n =>
      Record(ages[i], genders[i], cities[i], incomes[i], education[i], occupation[i], steps[i],
             days[i], workoutType[i], durations[i], calories[i], uses[i], features[i],
             frequency[i], premium[i], motivators[i], willingness[i], importance[i],
             challenge[i], motivatedBy[i], device[i], nps[i], content[i], group[i], goals[i]));
  }

  /** Scaling non-negative incomes by non-negative factors leaves every income non-negative. */
  lemma ScaledNonNegative(s: seq<int>, idx: seq<nat>, f: seq<int>)
    requires |idx| == |f|
    requires forall k :: 0 <= k < |idx| ==> idx[k] < |s|
    requires forall k :: 0 <= k < |s| ==> s[k] >= 0
    requires forall k :: 0 <= k < |f| ==> f[k] >= 0
    ensures forall j :: 0 <= j < |s| ==> Income.Scaled(s, idx, f)[j] >= 0
  {
    forall j | 0 <= j < |s| ensures Income.Scaled(s, idx, f)[j] >= 0 {
      ScaledIncomeNonNegative(s, idx, f, j);
    }
  }

  /** Scaling non-negative incomes by the drawn factors leaves them non-negative. */
  lemma {:induction false} ScaledIncomeNonNegative(s: seq<int>, idx: seq<nat>, f: seq<int>, j: nat)
    requires |idx| == |f| && j < |s|
    requires forall k :: 0 <= k < |idx| ==> idx[k] < |s|
    requires forall k :: 0 <= k < |s| ==> s[k] >= 0
    requires forall k :: 0 <= k < |f| ==> f[k] >= 0
    ensures Income.Scaled(s, idx, f)[j] >= 0
    decreases |idx|
  {
    if idx != [] {
      var m := |idx| - 1;
      ScaledIncomeNonNegative(s, idx[..m], f[..m], j);
      if j == idx[m] {
        NonNegativeProduct(s[idx[m]], f[m]);
      }
    }
  }

  lemma NonNegativeProduct(a: int, b: int)
    requires a >= 0 && b >= 0
    ensures a * b >= 0
  {
  }
}
