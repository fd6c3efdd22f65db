# Synthetic fitness-survey generator: a Dafny model

`app.py` fills a survey table of 25 columns, one row per respondent. The columns are:

- the respondent's age, gender, city type and income;
- education and occupation;
- activity: steps, workout days, workout type, session duration and calories;
- whether the respondent uses a fitness app, and the app-only answers (features used,
  usage frequency, premium subscription, upgrade motivators, content, group challenges);
- willingness to pay, importance of fitness and the NPS score;
- challenge, motivator, device and goal.

This project models the deterministic layer that turns random draws into those records. Every
random value is an explicit input. Each kind of draw is modelled as follows:

- A normal draw is its standard deviate, in hundredths.
- An `astype(int)` sample is its pre-clip whole number.
- `random.random() < p` is a uniform draw in hundredths (or thousandths) compared with `p`.
- A weighted `np.random.choice` of one item is a uniform draw in hundredths located in the
  cumulative weights.
- `np.random.randint` is a count draw reduced into the range.
- A choice without replacement is a stream of pick draws. Each pick chooses among the items
  still left. Lemmas show that exactly the outcomes numpy can produce are reachable this way.

The modules follow the script's structure.

- `Strings`: joining with `", "` and reading a cell back by splitting.
- `Sampling`: `np.random.choice` and `np.random.randint` as used by `multi_select`, with numpy's
  errors in numpy's order. Also `multi_select` itself.
  - Weights are uniform, probabilities (must sum to one) or relative weights (normalised).
- `Numeric`: `np.clip`, `int()` truncation toward zero, and the value of a normal draw.
- `Income`: the in-place injection of eight income outliers into an `array`.
- `Premium`: the subscription rule, including the probability built up step by step.
- `Scores`: willingness to pay, fitness importance and NPS. The three column loops are
  methods with `for` loops.
- `AppFields`: the answers that only app users draw. A non-user gets the inactive value.
- `Survey`: the other categorical columns, the record and its 25-column layout, and the
  generator, which builds the columns in the script's order and then the rows.

Everything is proved for all inputs. Nothing here was executed.

## Model

| member | source | states |
|---|---|---|
| `Strings.SplitJoin` | app.py:21 | Splitting a `", "`-join of comma-free parts on `", "` gives back exactly those parts. |
| `Sampling.Choice` | app.py:18-20 | The selection succeeds iff the weights are accepted and `0 <= size <=` the number of items with a chance. On success it holds `size` distinct indices, each below the population size and with a chance of being drawn. |
| `Sampling.ChoiceErrors` | app.py:18-20 | A failing selection reports numpy's first failing check, in numpy's order: an empty population asked for samples, then the first weight error (size mismatch, a negative weight, a bad sum or a zero total), then more samples than the population, then a negative size, then fewer items with a chance than samples. |
| `Sampling.DrawDistinct` | app.py:18-20 | Drawing without replacement yields one item per pick, all distinct, all from the pool. |
| `Sampling.DrawDistinctReaches` | app.py:18-20 | Every sequence of distinct pool items is the outcome of some picks. |
| `Sampling.ChoiceReaches` | app.py:18-20 | Every sequence of distinct indices that have a chance is what the choice returns for some pick draws. |
| `Sampling.Count` | app.py:15 | `randint(min_items, max_items + 1)` lies in `[min_items, max_items]`. |
| `Sampling.CountReaches` | app.py:15 | Every count in `[min_items, max_items]` is drawn by some draw. |
| `Sampling.SelectIndices` | app.py:12-20 | `min_items > max_items` (after the default) is an error. On success the count is in `[min_items, max_items]`, with `max_items` defaulting to the number of options, and the indices are distinct, valid and possible. When the weights are accepted and the count range fits the options, it always succeeds. |
| `Sampling.SelectIndicesReaches` | app.py:15-20 | A count draw giving `n` items, followed by picks that choose `t`, selects exactly `t`. |
| `Sampling.MultiSelect` | app.py:12-21 | The helper fails exactly when its selection of indices fails. |
| `Sampling.MultiSelectParts` | app.py:12-21 | Read back by splitting, a cell holds between `min_items` and `max_items` options. Every part is one of the options, and the parts are distinct when the options are. |
| `Sampling.NamesRead` | app.py:21 | The joined names of chosen option indices split back into those names. They are distinct when the indices and the options are. |
| `Sampling.MultiSelectReaches` | app.py:12-21 | Every choice of distinct possible options, in a number within the bounds, is the cell of some draw. |
| `Sampling.PickWeighted` | app.py:88 | A weighted single choice returns the index whose cumulative-weight interval holds the uniform draw. That index has a positive weight. |
| `Numeric.Clip` | app.py:28 | The result lies in `[lo, hi]`. It is the input inside the interval and the nearer bound outside it. |
| `Numeric.ClipMonotone` | app.py:137 | Clipping never reverses the order of two values. |
| `Numeric.ClipColumn` | app.py:58 | Clipping a column keeps its length and clips each element into the interval. |
| `Numeric.TruncThousandths` | app.py:132-136 | `int()` truncates toward zero: for a non-negative value the whole part below it, for a negative one the whole part above it. |
| `Numeric.Score` | app.py:160 | `np.clip(int(normal), 1, 10)` is always in `[1, 10]`. |
| `Numeric.ScoreMonotone` | app.py:155-160 | A larger draw value never gives a lower score. |
| `Income.ScaledAt` | app.py:41 | With distinct indices, each chosen income becomes its old value times its own factor, and every other income keeps its value. |
| `Income.ExactlyTheChosenChange` | app.py:40-41 | For positive incomes and factors in `[2, 5]`, an income changes iff its index was chosen. Each changed income is between 2 and 5 times its old value. |
| `Income.Factors` | app.py:41 | `randint(2, 6, size=8)` gives 8 factors, each in `[2, 5]`. |
| `Income.InjectOutliers` | app.py:40-41 | The in-place update fails iff there are fewer than 8 incomes, and then leaves the array unchanged. Otherwise it chooses 8 distinct valid indices, namely the uniform choice without replacement of its picks, and the array becomes the old incomes scaled at those indices by the drawn factors. |
| `Income.ScaleInPlace` | app.py:41 | After the assignment the array holds the old incomes scaled at the given indices by the given factors, every right-hand value read before any write. |
| `Income.AnyOutliers` | app.py:40 | Every choice of 8 distinct respondents is the outlier choice of some picks. |
| `Income.WithOutliers` | app.py:37-41 | The same on an income column copied into a fresh array. |
| `Premium.Probability` | app.py:99-104 | The subscription probability lies in `[14, 58]` hundredths. |
| `Premium.AccumulateProbability` | app.py:99-104 | The step-by-step accumulation equals the base plus exactly the bonuses whose conditions hold. |
| `Premium.ProbabilityMonotone` | app.py:100-104 | Meeting every condition another profile meets never lowers the probability. |
| `Premium.ProbabilityExtremes` | app.py:99-104 | The probability is 14 iff no condition holds, and 58 iff all of them hold. |
| `Premium.SubscribeIff` | app.py:95-105 | "Yes" iff the respondent uses the app, uses it daily, weekly or monthly, and drew below the probability. |
| `Premium.SubscribeByDraw` | app.py:105 | For an eligible respondent, a draw below 14 always subscribes and one of 58 or more never does. |
| `Premium.SubscribeMonotone` | app.py:99-105 | On the same draw, a profile meeting more conditions subscribes whenever the other does. |
| `Premium.SubscribedPremiumColumn` | app.py:93-105 | The loop's column holds, for each respondent, the subscription rule's answer. |
| `Scores.WillingnessToPay` | app.py:126 | Always at least 50. It is the whole part of the amount's magnitude when that is 50 or more, and exactly 50 otherwise. |
| `Scores.PayDrawsThatMatter` | app.py:117-125 | The income-boost draw matters only to a subscriber with income above 2,500,000. The outlier size matters only when the outlier draw is below 15 thousandths. |
| `Scores.WillingnessColumn` | app.py:115-126 | The loop's column holds, for each respondent, the willingness rule, and every entry is at least 50. |
| `Scores.Importance` | app.py:130-137 | Fitness_Importance_1_10 is always in `[1, 10]`. |
| `Scores.Nps` | app.py:153-160 | NPS_Recommend_1_10 is always in `[1, 10]`. |
| `Scores.BranchPriority` | app.py:131-159 | Importance checks the subscriber branch first, so a subscriber gets it whatever the app answer. NPS checks app use first, so a non-user gets the non-user branch even when subscribed. |
| `Scores.ImportanceOrder` | app.py:131-137 | On the same deviate, subscriber ≥ other user ≥ non-user. |
| `Scores.NpsOrder` | app.py:154-160 | On the same deviate, subscribing user ≥ other user ≥ non-user. |
| `Scores.ImportanceColumn` | app.py:129-137 | The loop's column holds the importance rule for each respondent, every entry in `[1, 10]`. |
| `Scores.NpsColumn` | app.py:152-160 | The loop's column holds the NPS rule for each respondent, every entry in `[1, 10]`. |
| `AppFields.FeatureWeightsRejected` | app.py:81 | As written, every app user's feature selection fails with "probabilities do not sum to 1", whatever the draws. |
| `AppFields.FeatureWeightsAccepted` | app.py:81 | Read as relative weights, the six feature weights are accepted and every feature can be chosen. |
| `AppFields.Features` | app.py:80-83 | A non-user's Features_Used is "None". A user's cell splits into 1 to 4 distinct features (corrected weights). |
| `AppFields.Motivators` | app.py:109-112 | A non-user's Motivators_For_Upgrade is "None". A user's cell splits into 1 to 3 distinct motivators. |
| `AppFields.UsageFrequency` | app.py:87-90 | A non-user's App_Usage_Frequency is "Never". |
| `AppFields.UsageFrequencyShares` | app.py:88 | For a user the frequency is Daily, Weekly, Monthly, Rarely or Never exactly on draws below 69, in `[69, 84)`, `[84, 92)`, `[92, 97)` and from 97 on. |
| `AppFields.Content` | app.py:164 | A non-user's Content_Engaged is "None". A user's is one of the five content types. |
| `AppFields.GroupChallenges` | app.py:167 | A non-user's Interested_In_Group_Challenges is "No". |
| `AppFields.GroupChallengesShare` | app.py:167 | A user answers "Yes" exactly on draws below 63. |
| `Survey.Categorical` | app.py:31 | A weighted single choice whose weights sum to one returns one of its options. |
| `Survey.Gender` | app.py:31 | Gender is one of its four options. |
| `Survey.CityType` | app.py:34 | City_Type is one of its four options. |
| `Survey.EducationLevel` | app.py:44-46 | Education_Level is one of its five options. |
| `Survey.Occupation` | app.py:49-51 | Occupation is one of its five options. |
| `Survey.WorkoutDays` | app.py:61 | Workout_Days_Per_Week is between 0 and 7. |
| `Survey.WorkoutType` | app.py:64-65 | Preferred_Workout_Type is one of its six options. |
| `Survey.UsesApp` | app.py:76 | Uses_Fitness_App is "Yes" or "No". |
| `Survey.Challenge` | app.py:140-141 | Biggest_Challenge is one of its six options. |
| `Survey.MotivatedBy` | app.py:144-145 | Fitness_Motivated_By is one of its five options. |
| `Survey.Device` | app.py:148-149 | Preferred_Device is one of its five options. |
| `Survey.Goal` | app.py:170-171 | Fitness_Goal is one of its six options. |
| `Survey.Cells` | app.py:174-200 | A record is written as 25 cells, one per header column. |
| `Survey.CellsLabelled` | app.py:174-200 | The cell in each position is the record field that the column name in that position labels, as the dictionary of the rows maps names to fields. |
| `Survey.HeaderDistinct` | app.py:175-199 | The 25 column names are distinct. |
| `Survey.AppColumnNames` | app.py:186-198 | The app-only columns sit at positions 11-15, 22 and 23 of the header. |
| `Survey.InactiveCells` | app.py:186-198 | A non-user's row writes "No", "None", "Never", "No", "None", "None" and "No" under Uses_Fitness_App, Features_Used, App_Usage_Frequency, Subscribed_Premium, Motivators_For_Upgrade, Content_Engaged and Interested_In_Group_Challenges. |
| `Survey.RecordBounded` | app.py:28-160 | Every record has its age in `[15, 70]`, steps in `[500, 25000]`, duration in `[5, 180]` and calories in `[400, 3000]`. Its payment is at least 50, both scores are in `[1, 10]` and its income is not negative. |
| `Survey.RecordCategories` | app.py:31-171 | Every categorical answer of a record is one of its options. |
| `Survey.RecordAppAnswers` | app.py:80-167 | A non-user's app-only answers are all inactive. A user's multi-value answers and content are valid. A subscriber uses the app, and more often than rarely. |
| `Survey.RecordWellFormed` | app.py:24-171 | Every record satisfies all three of the above, whatever the draws. |
| `Survey.ScaledNonNegative` | app.py:41 | Scaling non-negative incomes by non-negative factors leaves every income non-negative. |
| `Survey.RowsWellFormed` | app.py:174-200 | When no income is negative, every row of the table is well formed. |
| `Survey.Columns` | app.py:24-200 | Building the columns in the script's order, including the four loops, and then reading rows across them gives each respondent's record. |
| `Survey.Generate` | app.py:24-200 | Generation fails iff there are fewer than 8 respondents. Otherwise it injects 8 distinct outliers, chosen by the outlier picks, with factors in `[2, 5]`, every row is the respondent's record given the scaled income, and every row is well formed. |

## Left out

- Random generation itself: seeding (lines 6-7), the generators and the numpy and Python
  random streams. Each draw is an input, so the order in which the script consumes its streams
  does not matter here.
- How numpy maps its stream onto picks, that is its permutation for uniform choice without
  replacement and its cumulative-distribution search for weighted choice. The model replaces
  this with pick draws. The reachability lemmas show that the outcomes are exactly the ones
  numpy can produce.
- Floating point:
  - `random.random()` draws are taken to hundredths, or thousandths for the 0.015 outlier chance.
  - Normal deviates are taken to hundredths.
  - The checks that weights sum to one use exact hundredths, not numpy's tolerance.
  - The float accumulation of `base_prob` is replaced by exact hundredths.
- The calories formula (line 72) uses floats. The pre-clip calories value is an input.
- The mixture sizes `int(num_responses * 0.93)` and similar (lines 24-27, 54-57). Each
  respondent's pre-clip age and steps are inputs, and the 93/7 and 92/8 splits are not modelled.
  So the model gives every respondent an age and a step value for any number of respondents.
  The script fixes that number at 1000 (line 9), where both splits add up to 1000. For most
  other sizes they do not, and line 72 would fail on columns of different lengths.
- The lognormal and gamma distributions (lines 37, 68). The pre-clip income and duration are
  inputs.
- 64-bit integer overflow of `incomes * factors`, since the model's integers are unbounded.
- The DataFrame beyond its column order and cell values, the CSV write (line 203) and the
  console output (lines 205-207).
- `Survey.Generate`: uses the corrected feature weights, so as written the script cannot
  produce a table that contains an app user. See Findings.

## Findings

| source | as written | input that shows it | evidently intended | confidence | as-written member | corrected member |
|---|---|---|---|---|---|---|
| app.py:81 | The Features_Used weights `[0.25, 0.18, 0.18, 0.10, 0.13, 0.13]` are passed as probabilities. They sum to 0.97, so `np.random.choice` raises "probabilities do not sum to 1". | Any respondent with Uses_Fitness_App = "Yes", for instance the first app user, whatever the draws. | The weights as relative shares of the six features, normalised by their total. | not executed | `AppFields.FeatureWeightsRejected` | `AppFields.Features` |
