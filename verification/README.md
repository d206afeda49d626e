# Fitkit.ai nutrition backend: analytics, calorie formulas and profile updates in Dafny

This project models the computational core of the Fitkit.ai backend:

- **Calorie formulas** (`Calories`, `calories.dfy`). Mifflin-St Jeor basal metabolic rate, TDEE by activity multiplier, the goal-adjusted daily calorie target, BMI rounded to one decimal, and the BMI category. JavaScript's `Math.round` is `Round(x) = floor(x + 1/2)`; one-decimal rounding is `Round(10x)/10`.
- **Meal records** (`Meals`, `meals.dfy`). A meal has a meal type, food items (protein, carbs and fat grams), its own `totalCalories`, a creation instant in milliseconds and a calendar-day index. The module also defines the sums and filters that specify the aggregations. The schema's lower bounds (nothing negative, at least one item) are a predicate, `AllValid`. A lemma requires it only where a result depends on it.
- **Weekly analytics** (`Weekly`, `weekly.dfy`). `WeeklyAnalytics` builds seven zero-initialised day buckets in a map, folds every meal into the bucket of its day (meals of other days are skipped), rounds the buckets and derives the total, the 7-day average and the macro averages. It is proved against the specification function `Bucket`. Lemmas show:
  - no meal is lost or counted twice;
  - a meal of another day changes nothing;
  - a meal logged today lands in no bucket, because the buckets start seven days back;
  - when every meal lies in the seven bucket days, the reported total is within 3.5 kcal of the meals' calories.
- **Macro distribution** (`Macros`, `macros.dfy`). Daily grams over 7 days, or 30 for the period `month`; calories at 4, 4 and 9 kcal per gram; percentages guarded against a zero total. Lemmas show three things. The unrounded shares lie in [0, 100] and add up to 100. The reported one-decimal percentages add up to between 99.9 and 100.1, and 9, 9 and 4 g a day report 33.3 three times, 99.9 in all. With no macros every figure is zero.
- **Insights** (`Insights`, `insights.dfy`). The insight list has these parts:
  - the calorie comparison (one of three);
  - the meal-type warning (at most one), using the max-fold whose ties go to the later type;
  - the protein check (at most one).

  The result also carries the calorie trend between the two half weeks, the goal progress capped at 100, and a constant protein trend. A missing user is an error result.
- **Accounts** (`Accounts`, `accounts.dfy`). Registration defaults the gender to male and stores the computed target. A profile update works as follows:
  - it rejects any key outside the whitelist before looking the user up;
  - it copies the values onto the `User` document in a loop;
  - it recomputes the target only when a target field was named.

  Lemmas show:
  - email and password never change;
  - a name-only update keeps the target;
  - an update keeps a consistent target consistent;
  - repeating an update changes nothing.

Some properties of the code as written, proved here:

- A meal created on the current day is fetched by the weekly query but lands in no bucket (`Weekly.TodaysMealIsDropped`).
- The meal-type threshold compares a weekly per-type total with 40% of a daily average. The largest of the four types always holds at least a quarter of the week, so any week with calories gets the meal-type warning (`Insights.AnyIntakeWarnsOnMealType`).
- With a zero calorie target, any intake yields the over-target warning whose percentage is not a finite number (`Insights.ZeroTargetWarnsOnAnyIntake`). The goal progress is then 100 for any intake, and not a number without intake (`Insights.GoalProgress`).

Divisions that JavaScript turns into `Infinity` or `NaN` are modelled as `Option` values, where `None` means not a finite number. Everything is computed on exact reals.

## Model

| member | source | states |
|---|---|---|
| `Calories.Round` | src/utils/calculateCalories.ts:14 | Math.round: the result is the integer within one half of x, with a half rounded up |
| `Calories.RoundTenth` | src/utils/calculateCalories.ts:65 | the one-decimal rounding is a whole number of tenths and lies within 0.05 of x |
| `Calories.RoundShift` | src/utils/calculateCalories.ts:12-14 | adding a whole number before rounding adds it to the rounded result |
| `Calories.RoundMonotone` | src/utils/calculateCalories.ts:33 | rounding preserves order |
| `Calories.RoundWhole` | src/utils/calculateCalories.ts:56 | a whole number rounds to itself, so rounding an integer sum is the identity |
| `Calories.BMR` | src/utils/calculateCalories.ts:6-15 | BMR is 10w + 6.25h - 5a + 5 (male) or - 161 (female), rounded |
| `Calories.BmrGenderGap` | src/utils/calculateCalories.ts:12-14 | for the same weight, height and age, male BMR minus female BMR is exactly 166 |
| `Calories.ActivityMultiplier` | src/utils/calculateCalories.ts:25-31 | every activity multiplier lies between 1.2 and 1.9 |
| `Calories.TDEE` | src/utils/calculateCalories.ts:21-34 | TDEE is the BMR times the activity multiplier, rounded |
| `Calories.TdeeMonotone` | src/utils/calculateCalories.ts:25-33 | for a non-negative BMR, a higher activity level never gives a lower TDEE |
| `Calories.DailyCalorieTarget` | src/utils/calculateCalories.ts:39-57 | the daily target is TDEE - 500, TDEE or TDEE + 500 for loss, maintain and gain |
| `Calories.GainMinusLoss` | src/utils/calculateCalories.ts:50-56 | for the same body data, the gain target exceeds the loss target by exactly 1000 |
| `Calories.BMI` | src/utils/calculateCalories.ts:62-66 | BMI is weight over height in metres squared, rounded to one decimal |
| `Calories.BmiCategoryOf` | src/utils/calculateCalories.ts:71-76 | each category holds exactly when the BMI is in its range: below 18.5, [18.5, 25), [25, 30), 30 and above |
| `Calories.BmiCategoryMonotone` | src/utils/calculateCalories.ts:71-76 | a larger BMI never gets an earlier category |
| `Meals.ItemsGramsNonNegative` | src/models/Meal.ts:34-51 | items that obey the schema have non-negative macro grams |
| `Meals.TotalGramsNonNegative` | src/models/Meal.ts:34-51 | meals that obey the schema have non-negative macro totals |
| `Meals.TotalCaloriesNonNegative` | src/models/Meal.ts:84-88 | meals that obey the schema have a non-negative calorie sum |
| `Meals.TotalCaloriesAppend` | src/controllers/analyticsController.ts:215 | the calorie sum of two lists joined is the sum of their sums |
| `Meals.HalvesPartition` | src/controllers/analyticsController.ts:286-292 | each meal is in exactly one trend half; the half counts and calorie sums add up to the whole |
| `Meals.OtherDayMealIgnored` | src/controllers/analyticsController.ts:50-53 | a meal of another day, wherever it sits in the list, is not among a day's meals |
| `Meals.FiltersKeepValid` | src/controllers/analyticsController.ts:286-292 | both trend filters keep schema-valid meals valid |
| `Weekly.BucketSnoc` | src/controllers/analyticsController.ts:49-61 | folding one more meal adds its totalCalories and the macros of its items to its own day's bucket, and changes no other bucket |
| `Weekly.ZeroBuckets` | src/controllers/analyticsController.ts:34-46 | the map has a key for exactly the seven days of the window, each holding an empty bucket |
| `Weekly.AddToBucket` | src/controllers/analyticsController.ts:53-60 | the item loop adds the meal's totalCalories and each item's protein, carbs and fat to the day's sums |
| `Weekly.FillBuckets` | src/controllers/analyticsController.ts:48-61 | after the fold the map keeps its seven keys and each bucket holds exactly the meals of its day |
| `Weekly.WeeklyAnalytics` | src/controllers/analyticsController.ts:30-90 | seven stats, the k-th being the rounded bucket of day startDay + k; strictly ascending dates; all zero without meals; the total is the sum of the rounded days; the average and the macro averages divide by 7 |
| `Weekly.WindowGrowsByOneDay` | src/controllers/analyticsController.ts:49-61 | widening the window by one day adds exactly that day's calories |
| `Weekly.BucketsHoldWindow` | src/controllers/analyticsController.ts:49-61 | the buckets together hold exactly the calories of the meals whose day is in the window |
| `Weekly.WeekHoldsAllCalories` | src/controllers/analyticsController.ts:35-61 | when every meal lies in the week, the seven buckets hold all its calories |
| `Weekly.SkippedMealChangesNoBucket` | src/controllers/analyticsController.ts:51-53 | a meal whose day has no bucket changes no bucket |
| `Weekly.TodaysMealIsDropped` | src/controllers/analyticsController.ts:18-53 | a meal of the current day (startDay + 7) changes no bucket |
| `Weekly.RoundedDaysNearExact` | src/controllers/analyticsController.ts:64-78 | a total of n rounded days lies within n/2 of the unrounded calories |
| `Weekly.WeeklyTotalNearMeals` | src/controllers/analyticsController.ts:63-79 | when every meal lies in the week, the reported total is within 3.5 kcal of the meals' calories |
| `Macros.PeriodDays` | src/controllers/analyticsController.ts:146 | the divisor is 30 exactly for the period "month" and 7 for any other |
| `Macros.Share` | src/controllers/analyticsController.ts:158-160 | with a positive total the share times the total is 100 times the part; otherwise the share is zero |
| `Macros.Percentages` | src/controllers/analyticsController.ts:155-160 | with positive macro calories each percentage times the total is 100 times that macro's calories; otherwise all three are zero |
| `Macros.ZeroCaloriesZeroPercent` | src/controllers/analyticsController.ts:158-160 | with no macro calories the three percentages are zero |
| `Macros.PercentagesAddUp` | src/controllers/analyticsController.ts:155-160 | with some macro calories each unrounded percentage is in [0, 100] and the three add up to 100 |
| `Macros.RoundedSharesNearHundred` | src/controllers/analyticsController.ts:158-176 | three shares adding up to 100, each rounded to one decimal, add up to between 99.9 and 100.1 |
| `Macros.ReportedPercentagesNearHundred` | src/controllers/analyticsController.ts:145-177 | for schema-valid meals with some macro calories, the three reported percentages add up to between 99.9 and 100.1 |
| `Macros.EqualThirdsReportNinetyNineNine` | src/controllers/analyticsController.ts:152-177 | 9 g protein, 9 g carbs and 4 g fat a day report 33.3% three times, adding up to 99.9 |
| `Macros.SumMacroGrams` | src/controllers/analyticsController.ts:133-143 | the nested loops total each macro over every item of every meal |
| `Macros.MacroDistribution` | src/controllers/analyticsController.ts:132-177 | each macro reports its daily grams, those grams' calories at 4/4/9 kcal per gram, and its share of the macro calories, rounded as the handler rounds them |
| `Macros.ZeroGramsZeroFigures` | src/controllers/analyticsController.ts:152-160 | zero grams of every macro give zero calories and zero shares |
| `Macros.NoMacrosAllZero` | src/controllers/analyticsController.ts:145-177 | meals without macro grams report 0 g, 0 kcal and 0% for every macro |
| `Macros.DistributionSharesAddUp` | src/controllers/analyticsController.ts:145-160 | for schema-valid meals, either there are no macro calories or the shares add up to 100 |
| `Insights.CalorieInsight` | src/controllers/analyticsController.ts:219-237 | exactly one calorie insight: above when avg > 1.1 target, below when avg < 0.9 target, on target in between; it carries the rounded average |
| `Insights.PercentAbove` | src/controllers/analyticsController.ts:222 | not a finite number exactly for a zero target; with a positive target it is non-negative at or above the target and non-positive at or below it |
| `Insights.CalorieInsightKind` | src/controllers/analyticsController.ts:219-237 | the calorie insight is a warning above 110% of the target, information below 90%, a success in between |
| `Insights.AboveTargetByAtLeastTen` | src/controllers/analyticsController.ts:219-224 | with a positive target, the over-target percentage is at least 10 |
| `Insights.ZeroTargetWarnsOnAnyIntake` | src/controllers/analyticsController.ts:219-224 | with a zero target, any intake gives the warning with a non-finite percentage |
| `Insights.MealTypeTotals.Add` | src/controllers/analyticsController.ts:245 | adding a meal raises its own type's total by its calories and leaves the other types |
| `Insights.ByTypeIsOfType` | src/controllers/analyticsController.ts:243-246 | each type's total is the calorie sum of the meals of that type |
| `Insights.ByTypeSumsToTotal` | src/controllers/analyticsController.ts:243-246 | the four type totals add up to the week's calories |
| `Insights.HighestMealType` | src/controllers/analyticsController.ts:248-250 | the chosen type has the largest total, and on a tie it is the latest in the order breakfast, lunch, dinner, snack |
| `Insights.MealTypeInsights` | src/controllers/analyticsController.ts:252-258 | one warning for the highest type exactly when its total exceeds 40% of the daily average, otherwise none |
| `Insights.AnyIntakeWarnsOnMealType` | src/controllers/analyticsController.ts:214-258 | any week with positive calories gets the meal-type warning |
| `Insights.QuarterBeatsThreshold` | src/controllers/analyticsController.ts:248-252 | type totals with a positive sum always raise the warning against a seventh of that sum |
| `Insights.ProteinInsights` | src/controllers/analyticsController.ts:268-283 | a hint iff avg < 0.8 rec, carrying the rounded gap; praise iff avg >= rec and not below 0.8 rec; at most one |
| `Insights.RecommendedProtein` | src/controllers/analyticsController.ts:269 | for a non-negative weight the recommendation lies between the weight and twice the weight (1.6 g per kg) |
| `Insights.ProteinSilentBand` | src/controllers/analyticsController.ts:268-283 | for a non-negative weight, no protein insight exactly when 0.8 rec <= avg < rec |
| `Insights.ProteinHintPositive` | src/controllers/analyticsController.ts:271-276 | for a positive weight, the grams suggested by the hint are not negative |
| `Insights.TrendOf` | src/controllers/analyticsController.ts:294-299 | increasing iff second > 1.1 first, decreasing iff second < 0.9 first (and not increasing), stable iff in between |
| `Insights.TrendScaleFree` | src/controllers/analyticsController.ts:286-299 | dividing both halves by the same positive length does not change the trend |
| `Insights.FirstHalf` | src/controllers/analyticsController.ts:286-288 | for schema-valid meals the first half-week rate lies between 0 and the week's calories over 3.5 |
| `Insights.SecondHalf` | src/controllers/analyticsController.ts:290-292 | for schema-valid meals the second half-week rate lies between 0 and the week's calories over 3.5 |
| `Insights.HalvesAreNonNegative` | src/controllers/analyticsController.ts:286-292 | for schema-valid meals each half holds between none and all of the week's calories |
| `Insights.CaloriesTrend` | src/controllers/analyticsController.ts:286-299 | the trend is the trend of the two half-week calorie totals |
| `Insights.HalvesAverageToWeek` | src/controllers/analyticsController.ts:286-292 | the two half-week daily rates add up to twice the weekly daily average |
| `Insights.EmptyHalvesStable` | src/controllers/analyticsController.ts:286-299 | two empty halves mean no meals and a stable trend |
| `Insights.GoalProgress` | src/controllers/analyticsController.ts:302-305 | the progress never exceeds 100; it is 100 once the intake reaches a positive target; it is not a finite number only for a zero target without intake |
| `Insights.GoalProgressMonotone` | src/controllers/analyticsController.ts:302-305 | with a positive target, the progress is non-negative and does not fall as intake grows |
| `Insights.TallyMealTypes` | src/controllers/analyticsController.ts:240-246 | the forEach leaves each type's calorie total |
| `Insights.SumProtein` | src/controllers/analyticsController.ts:261-266 | the nested forEach totals the protein of every item |
| `Insights.InsightList` | src/controllers/analyticsController.ts:212-283 | one to three insights, the calorie insight first, then the meal-type warning and the protein insight |
| `Insights.PushInsights` | src/controllers/analyticsController.ts:218-283 | the three checks push exactly the insight list, in order |
| `Insights.WeekInsights` | src/controllers/analyticsController.ts:214-283 | the insights of a week are the insight list for the week's daily calories, its per-type totals, its daily protein and the user's target and weight |
| `Insights.GetInsights` | src/controllers/analyticsController.ts:189-313 | no user gives the not-found error; otherwise the insight list for the week's meals and the user's target and weight, the calorie trend of the two half weeks, a constant stable protein trend and the goal progress |
| `Accounts.GenderOrMale` | src/controllers/authController.ts:188 | a missing gender is taken as male and a given one is kept |
| `Accounts.IsValidOperation` | src/controllers/authController.ts:153-159 | an update is valid exactly when its keys are whitelisted; a valid one names neither email, password nor the target |
| `Accounts.TouchesTarget` | src/controllers/authController.ts:179-183 | true exactly when some key is a target field; a valid update that touches no target field names only the name |
| `Accounts.Register` | src/controllers/authController.ts:18-59 | a taken email is an error; otherwise the record holds the submitted data, the gender defaults to male, and the target agrees with the stored figures |
| `Accounts.RegisterDefaultsToMale` | src/controllers/authController.ts:25 | registering without a gender is the same as registering as male |
| `Accounts.Assigned` | src/controllers/authController.ts:175 | assigning one allowed field sets that field and leaves every other field, email, password and target |
| `Accounts.Copied` | src/controllers/authController.ts:174-176 | after copying, each requested field holds its value and every other field is unchanged |
| `Accounts.UpdateTakesRequestedValues` | src/controllers/authController.ts:153-176 | after an accepted update, requested fields take their values, others keep theirs, and email and password never change |
| `Accounts.TargetFieldUpdateRecomputes` | src/controllers/authController.ts:179-191 | an update naming a target field stores the target computed from the updated fields, a missing gender counting as male |
| `Accounts.NameOnlyUpdateKeepsTarget` | src/controllers/authController.ts:153-183 | an update naming no target field names only the name and keeps the stored target |
| `Accounts.UpdateKeepsTargetConsistent` | src/controllers/authController.ts:174-192 | a target consistent with the figures stays consistent after any accepted update |
| `Accounts.UpdateIdempotent` | src/controllers/authController.ts:174-192 | applying the same update twice stores the same record as applying it once |
| `Accounts.RegisteredThenUpdatedIsConsistent` | src/controllers/authController.ts:38-45 | a registered user's target stays consistent with the figures through any accepted update |
| `Accounts.User.constructor` | src/models/User.ts:4-18 | a document built from a record has that record as its snapshot |
| `Accounts.User.Set` | src/controllers/authController.ts:175 | setting one field changes the document exactly as `Assigned` does |
| `Accounts.User.ApplyUpdates` | src/controllers/authController.ts:174-192 | the copy loop and the conditional recomputation leave the document equal to the updated record |
| `Accounts.UpdateProfile` | src/controllers/authController.ts:147-199 | a key outside the whitelist is rejected first, then a missing user, then a value the save cannot cast; only a successful update changes the document, to the updated record |

## Left out

- HTTP plumbing: requests, responses, status codes, messages and the `try`/`catch` that turns exceptions into status 500. Error paths are result values.
- Database queries. `Meal.find` results are passed in as the `meals` sequence, `User.findById` as an optional record (`Option` or a null `User`), and the email lookup of registration as a boolean. The `save()` and `create()` calls are the state change itself.
- Date mechanics. `setHours` works in local time and `toISOString` in UTC. The model abstracts both to a millisecond instant and a calendar-day index per meal, and the two `Date.now()` calls of the insights handler to one `now`. The weekly handler's `startDate` is the parameter `startDay`.
- The in-place sort of `dailyStats` (src/controllers/analyticsController.ts:75). The days are pushed in ascending date order, and `Weekly.WeeklyAnalytics` proves the order, so sorting leaves the list as it is.
- Message text, interpolated strings and emoji icons. An insight is a constructor carrying its numeric payload; `Insight.KindOf` gives its warning/info/success type.
- `mealTypeCounts` in the insights handler: computed but never read.
- The `|| 0` fallbacks on item macros. The schema requires the fields and gives them defaults, so each is the item's own number.
- Floating point. All arithmetic is on exact reals, so IEEE-754 rounding artefacts are not captured.
- `calculateBMR`'s default `gender = 'male'` parameter. Every caller passes a gender: registration defaults it, and the update falls back with `|| 'male'`.
- Calories.BMI: requires a positive height. With a zero height JavaScript yields `Infinity` or `NaN`, which the real-number model has no value for.
- Accounts.UpdateProfile: request values carry their kind (text, number, gender, activity level, goal). Mongoose's casting between kinds (a numeric string for a number, say) and null or undefined values are not modelled. A value of the wrong kind is a failed save that leaves the document unchanged.
- The schema validators that `save()` and `create()` run are not modelled: name length and trim, age, weight and height ranges, email format, password length. Neither are password hashing, `toJSON` and token generation.
- Login, JWT, authentication middleware, request validation, image upload, the food recognition service and its client, seed data, and the meal CRUD controller are outside this model.
