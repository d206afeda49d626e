/**
 * Insights for the last seven days: how the average daily intake compares
 * with the calorie target, whether one meal type carries the most calories,
 * whether protein reaches 1.6 g per kg of body weight, the calorie trend
 * between the two halves of the week and the progress toward the target.
 */
module Insights {

  import opened Wrappers
  import opened Calories
  import opened Meals

  /** Half a week in milliseconds: 3.5 days of 24 hours. */
  const HalfWeekMillis: int := 302400000

  /** The recommended daily protein: 1.6 g per kg of body weight. */
  function RecommendedProtein(weight: real): (r: real)
    ensures weight >= 0.0 ==> weight <= r <= 2.0 * weight
  {
    weight * 1.6
  }

  /** The average daily intake over the week: the meals' calories over seven days. */
  function DailyAverage(meals: seq<Meal>): real
  {
    TotalCalories(meals) / 7.0
  }

  /** The average daily protein over the week: every item's protein over seven days. */
  function DailyProtein(meals: seq<Meal>): real
  {
    TotalGrams(meals, Protein) / 7.0
  }

  datatype Kind = Warning | Info | Success

  /**
   * One insight. The message text and icon of each are left out; what
   * varies in them (the rounded average, the percentage above target, the
   * meal type, the grams of protein missing) is kept.
   */
  datatype Insight =
    | CaloriesAbove(averageCalories: int, percentAbove: Option<int>)
    | CaloriesBelow(averageCalories: int)
    | CaloriesOnTarget
    | MealTypeHigh(mealType: MealType)
    | ProteinLow(increaseGrams: int)
    | ProteinMet
  {
    function KindOf(): Kind
    {
      match this
      case CaloriesAbove(_, _) => Warning
      case CaloriesBelow(_) => Info
      case CaloriesOnTarget => Success
      case MealTypeHigh(_) => Warning
      case ProteinLow(_) => Info
      case ProteinMet => Success
    }

    predicate IsCalorieInsight()
    {
      CaloriesAbove? || CaloriesBelow? || CaloriesOnTarget?
    }
  }

  datatype Trend = Increasing | Decreasing | Stable

  /** None stands for a figure that is not a finite number (a division by a zero target). */
  datatype Trends = Trends(caloriesTrend: Trend, proteinTrend: Trend, goalProgress: Option<int>)

  datatype InsightsReport = InsightsReport(insights: seq<Insight>, trends: Trends)

  datatype Failure = UserNotFound

  /** The two stored figures of the user that the insights read. */
  datatype UserFigures = UserFigures(weight: real, dailyCalorieTarget: int)

  // ---------------------------------------------------------------------
  // Calorie target comparison

  /** Math.round((average / target - 1) * 100); not a finite number when the target is zero. */
  function PercentAbove(average: real, target: int): (r: Option<int>)
    ensures r.None? <==> target == 0
    ensures target > 0 && average >= target as real ==> r.Some? && r.value >= 0
    ensures target > 0 && average <= target as real ==> r.Some? && r.value <= 0
  {
    if target == 0 then None
    else
      var ratio := average / target as real;
      assert target > 0 ==> (average >= target as real <==> ratio >= 1.0) by {
        if target > 0 {
          assert average == ratio * target as real;
        }
      }
      Some(Round((ratio - 1.0) * 100.0))
  }

  /** A warning above 110% of the target, a hint below 90%, praise in between. */
  function CalorieInsight(average: real, target: int): (i: Insight)
    ensures i.IsCalorieInsight()
    ensures i.CaloriesAbove? <==> average > target as real * 1.1
    ensures i.CaloriesBelow? <==> average <= target as real * 1.1 && average < target as real * 0.9
    ensures i.CaloriesOnTarget? <==> target as real * 0.9 <= average <= target as real * 1.1
    ensures !i.CaloriesOnTarget? ==> i.averageCalories == Round(average)
    ensures i.CaloriesAbove? ==> i.percentAbove == PercentAbove(average, target)
  {
    if average > target as real * 1.1 then CaloriesAbove(Round(average), PercentAbove(average, target))
    else if average < target as real * 0.9 then CaloriesBelow(Round(average))
    else CaloriesOnTarget
  }

  lemma AboveByMoreThanTenth(average: real, target: real)
    requires target > 0.0 && average > target * 1.1
    ensures (average / target - 1.0) * 100.0 > 10.0
  {
    assert average / target > 1.1 by {
      assert average == (average / target) * target;
    }
  }

  /** With a positive target, the warning reports at least 10% above it. */
  lemma AboveTargetByAtLeastTen(average: real, target: int)
    requires target > 0
    requires CalorieInsight(average, target).CaloriesAbove?
    ensures CalorieInsight(average, target).percentAbove.Some?
    ensures CalorieInsight(average, target).percentAbove.value >= 10
  {
    AboveByMoreThanTenth(average, target as real);
  }

  /** The calorie insight is a warning above 110% of the target, information below 90%, a success in between. */
  lemma CalorieInsightKind(average: real, target: int)
    ensures CalorieInsight(average, target).KindOf() == Warning <==> average > target as real * 1.1
    ensures CalorieInsight(average, target).KindOf() == Info
            <==> average <= target as real * 1.1 && average < target as real * 0.9
    ensures CalorieInsight(average, target).KindOf() == Success
            <==> target as real * 0.9 <= average <= target as real * 1.1
  {
  }

  /** With a zero target any intake is above it, and the percentage is not a finite number. */
  lemma ZeroTargetWarnsOnAnyIntake(average: real)
    requires average > 0.0
    ensures CalorieInsight(average, 0) == CaloriesAbove(Round(average), None)
  {
  }

  // ---------------------------------------------------------------------
  // Meal type analysis

  /** Calories per meal type. */
  datatype MealTypeTotals = MealTypeTotals(breakfast: real, lunch: real, dinner: real, snack: real)
  {
    function Get(t: MealType): real
    {
      match t
      case Breakfast => breakfast
      case Lunch => lunch
      case Dinner => dinner
      case Snack => snack
    }

    function Add(t: MealType, calories: real): (r: MealTypeTotals)
      ensures r.Get(t) == Get(t) + calories
      ensures forall u :: u != t ==> r.Get(u) == Get(u)
      ensures r.Sum() == Sum() + calories
    {
      match t
      case Breakfast => this.(breakfast := breakfast + calories)
      case Lunch => this.(lunch := lunch + calories)
      case Dinner => this.(dinner := dinner + calories)
      case Snack => this.(snack := snack + calories)
    }

    function Sum(): real
    {
      breakfast + lunch + dinner + snack
    }
  }

  /** The key order of the totals object: breakfast, lunch, dinner, snack. */
  function TypeRank(t: MealType): nat
  {
    match t
    case Breakfast => 0
    case Lunch => 1
    case Dinner => 2
    case Snack => 3
  }

  /** The calories of every meal added to the total of its type. */
  function ByType(meals: seq<Meal>): MealTypeTotals
  {
    if meals == [] then MealTypeTotals(0.0, 0.0, 0.0, 0.0)
    else
      var last := meals[|meals| - 1];
      ByType(meals[..|meals| - 1]).Add(last.mealType, last.totalCalories)
  }

  /** Each type's total is the calories of the meals of that type. */
  lemma {:induction false} ByTypeIsOfType(meals: seq<Meal>, t: MealType)
    ensures ByType(meals).Get(t) == TotalCalories(OfType(meals, t))
  {
    if meals != [] {
      var init, last := meals[..|meals| - 1], meals[|meals| - 1];
      assert meals == init + [last];
      ByTypeIsOfType(init, t);
      if last.mealType == t {
        TotalCaloriesSnoc(OfType(init, t), last);
      } else {
        assert OfType(meals, t) == OfType(init, t);
      }
    }
  }

  /** The four totals share out all the calories. */
  lemma {:induction false} ByTypeSumsToTotal(meals: seq<Meal>)
    ensures ByType(meals).Sum() == TotalCalories(meals)
  {
    if meals != [] {
      var init, last := meals[..|meals| - 1], meals[|meals| - 1];
      ByTypeSumsToTotal(init);
      assert ByType(meals) == ByType(init).Add(last.mealType, last.totalCalories);
      assert TotalCalories(meals) == TotalCalories(init) + last.totalCalories;
    }
  }

  /** The later type of two with equal totals, as the reduce over the keys picks. */
  function Larger(totals: MealTypeTotals, a: MealType, b: MealType): MealType
  {
    if totals.Get(a) > totals.Get(b) then a else b
  }

  /** The meal type with the most calories; on a tie the last of them in key order. */
  function HighestMealType(totals: MealTypeTotals): (h: MealType)
    ensures forall t :: totals.Get(t) <= totals.Get(h)
    ensures forall t :: totals.Get(t) == totals.Get(h) ==> TypeRank(t) <= TypeRank(h)
  {
    Larger(totals, Larger(totals, Larger(totals, Breakfast, Lunch), Dinner), Snack)
  }

  /** A warning when the highest type's calories exceed 40% of the average daily intake. */
  function MealTypeInsights(totals: MealTypeTotals, average: real): (r: seq<Insight>)
    ensures |r| <= 1
    ensures |r| == 1 <==> totals.Get(HighestMealType(totals)) > average * 0.4
    ensures |r| == 1 ==> r[0] == MealTypeHigh(HighestMealType(totals))
  {
    var highest := HighestMealType(totals);
    if totals.Get(highest) > average * 0.4 then [MealTypeHigh(highest)] else []
  }

  lemma MaxAtLeastQuarter(totals: MealTypeTotals)
    ensures totals.Sum() <= 4.0 * totals.Get(HighestMealType(totals))
  {
    var h := HighestMealType(totals);
    assert totals.Get(Breakfast) <= totals.Get(h);
    assert totals.Get(Lunch) <= totals.Get(h);
    assert totals.Get(Dinner) <= totals.Get(h);
    assert totals.Get(Snack) <= totals.Get(h);
  }

  /**
   * The type totals are weekly sums while the threshold is 40% of a daily
   * average: the largest of the four holds at least a quarter of the week,
   * so any week with calories gets the meal type warning.
   */
  lemma AnyIntakeWarnsOnMealType(meals: seq<Meal>)
    requires TotalCalories(meals) > 0.0
    ensures |MealTypeInsights(ByType(meals), DailyAverage(meals))| == 1
  {
    ByTypeSumsToTotal(meals);
    QuarterBeatsThreshold(ByType(meals), TotalCalories(meals));
  }

  /** Totals with a positive sum: the highest type beats 40% of a seventh of that sum. */
  lemma QuarterBeatsThreshold(totals: MealTypeTotals, total: real)
    requires totals.Sum() == total && total > 0.0
    ensures |MealTypeInsights(totals, total / 7.0)| == 1
  {
    MaxAtLeastQuarter(totals);
  }

  // ---------------------------------------------------------------------
  // Protein intake

  /** A hint below 80% of the recommendation, praise at or above it, nothing in between. */
  function ProteinInsights(averageProtein: real, recommended: real): (r: seq<Insight>)
    ensures |r| <= 1
    ensures (|r| == 1 && r[0].ProteinLow?) <==> averageProtein < recommended * 0.8
    ensures (|r| == 1 && r[0] == ProteinMet) <==> recommended * 0.8 <= averageProtein && recommended <= averageProtein
    ensures |r| == 1 && r[0].ProteinLow? ==> r[0].increaseGrams == Round(recommended - averageProtein)
  {
    if averageProtein < recommended * 0.8 then [ProteinLow(Round(recommended - averageProtein))]
    else if averageProtein >= recommended then [ProteinMet]
    else []
  }

  /** For a non-negative weight: no protein insight exactly between 80% and 100% of 1.6 g per kg. */
  lemma ProteinSilentBand(averageProtein: real, weight: real)
    requires weight >= 0.0
    ensures ProteinInsights(averageProtein, RecommendedProtein(weight)) == []
            <==> RecommendedProtein(weight) * 0.8 <= averageProtein < RecommendedProtein(weight)
  {
  }

  /** The grams suggested in the hint are positive: at least a fifth of the recommendation is missing. */
  lemma ProteinHintPositive(averageProtein: real, weight: real)
    requires weight > 0.0
    requires averageProtein < RecommendedProtein(weight) * 0.8
    ensures ProteinInsights(averageProtein, RecommendedProtein(weight))[0].increaseGrams >= 0
  {
  }

  // ---------------------------------------------------------------------
  // Trends and goal progress

  /** Increasing above 110% of the first half, decreasing below 90% of it, stable otherwise. */
  function TrendOf(first: real, second: real): (t: Trend)
    ensures t == Increasing <==> second > first * 1.1
    ensures t == Decreasing <==> second <= first * 1.1 && second < first * 0.9
    ensures t == Stable <==> first * 0.9 <= second <= first * 1.1
  {
    if second > first * 1.1 then Increasing
    else if second < first * 0.9 then Decreasing
    else Stable
  }

  /** Dividing both halves by the same positive length does not change the trend. */
  lemma TrendScaleFree(first: real, second: real, days: real)
    requires days > 0.0
    ensures TrendOf(first / days, second / days) == TrendOf(first, second)
  {
    assert (first / days) * 1.1 == (first * 1.1) / days;
    assert (first / days) * 0.9 == (first * 0.9) / days;
    assert second / days > (first * 1.1) / days <==> second > first * 1.1;
    assert second / days < (first * 0.9) / days <==> second < first * 0.9;
  }

  /** The calories before the split instant, per day of the half week. */
  function FirstHalf(meals: seq<Meal>, now: int): (r: real)
    ensures AllValid(meals) ==> 0.0 <= r <= TotalCalories(meals) / 3.5
  {
    var split := now - HalfWeekMillis;
    assert AllValid(meals) ==> 0.0 <= TotalCalories(Before(meals, split)) <= TotalCalories(meals) by {
      if AllValid(meals) {
        HalvesAreNonNegative(meals, split);
      }
    }
    TotalCalories(Before(meals, split)) / 3.5
  }

  /** The calories from the split instant on, per day of the half week. */
  function SecondHalf(meals: seq<Meal>, now: int): (r: real)
    ensures AllValid(meals) ==> 0.0 <= r <= TotalCalories(meals) / 3.5
  {
    var split := now - HalfWeekMillis;
    assert AllValid(meals) ==> 0.0 <= TotalCalories(NotBefore(meals, split)) <= TotalCalories(meals) by {
      if AllValid(meals) {
        HalvesAreNonNegative(meals, split);
      }
    }
    TotalCalories(NotBefore(meals, split)) / 3.5
  }

  /** For schema-valid meals, each half holds between none and all of the calories. */
  lemma HalvesAreNonNegative(meals: seq<Meal>, instant: int)
    requires AllValid(meals)
    ensures 0.0 <= TotalCalories(Before(meals, instant)) <= TotalCalories(meals)
    ensures 0.0 <= TotalCalories(NotBefore(meals, instant)) <= TotalCalories(meals)
  {
    FiltersKeepValid(meals, instant);
    HalvesPartition(meals, instant);
    TotalCaloriesNonNegative(Before(meals, instant));
    TotalCaloriesNonNegative(NotBefore(meals, instant));
  }

  /** The trend compares the half-week calorie totals themselves: the 3.5-day divisor cancels. */
  function CaloriesTrend(meals: seq<Meal>, now: int): (r: Trend)
    ensures r == TrendOf(TotalCalories(Before(meals, now - HalfWeekMillis)),
                         TotalCalories(NotBefore(meals, now - HalfWeekMillis)))
  {
    TrendScaleFree(TotalCalories(Before(meals, now - HalfWeekMillis)),
                   TotalCalories(NotBefore(meals, now - HalfWeekMillis)), 3.5);
    TrendOf(FirstHalf(meals, now), SecondHalf(meals, now))
  }

  /** Every meal falls in one half, so the two half-week rates average to the weekly one. */
  lemma HalvesAverageToWeek(meals: seq<Meal>, now: int)
    ensures FirstHalf(meals, now) + SecondHalf(meals, now) == 2.0 * DailyAverage(meals)
  {
    HalvesPartition(meals, now - HalfWeekMillis);
  }

  /** Two empty halves (no meals at all in the week) give a stable trend. */
  lemma EmptyHalvesStable(meals: seq<Meal>, now: int)
    requires Before(meals, now - HalfWeekMillis) == [] && NotBefore(meals, now - HalfWeekMillis) == []
    ensures meals == []
    ensures CaloriesTrend(meals, now) == Stable
  {
    HalvesPartition(meals, now - HalfWeekMillis);
  }

  function Min(a: int, b: int): int
  {
    if a < b then a else b
  }

  /**
   * min(Math.round(average / target * 100), 100). With a zero target the
   * ratio is infinite for a positive average (progress 100) and not a number
   * otherwise (None).
   */
  function GoalProgress(average: real, target: int): (r: Option<int>)
    ensures r.Some? ==> r.value <= 100
    ensures r.None? <==> target == 0 && average <= 0.0
    ensures target > 0 && average >= target as real ==> r == Some(100)
  {
    if target == 0 then (if average > 0.0 then Some(100) else None)
    else
      var ratio := average / target as real;
      assert target > 0 && average >= target as real ==> ratio >= 1.0 by {
        if target > 0 && average >= target as real {
          assert average == ratio * target as real;
        }
      }
      Some(Min(Round(ratio * 100.0), 100))
  }

  /** With a positive target, progress is a percentage that does not fall as intake grows. */
  lemma GoalProgressMonotone(a: real, b: real, target: int)
    requires target > 0 && 0.0 <= a <= b
    ensures GoalProgress(a, target).Some? && GoalProgress(b, target).Some?
    ensures 0 <= GoalProgress(a, target).value <= GoalProgress(b, target).value
  {
    var t := target as real;
    assert a / t <= b / t;
    assert 0.0 <= a / t;
    RoundMonotone(a / t * 100.0, b / t * 100.0);
    RoundMonotone(0.0, a / t * 100.0);
    RoundZero(0.0);
  }

  // ---------------------------------------------------------------------
  // The handler

  /** The forEach that adds each meal's calories to its type. */
  method TallyMealTypes(meals: seq<Meal>) returns (totals: MealTypeTotals)
    ensures totals == ByType(meals)
  {
    totals := MealTypeTotals(0.0, 0.0, 0.0, 0.0);
    for i := 0 to |meals|
      invariant totals == ByType(meals[..i])
    {
      assert meals[..i + 1][..i] == meals[..i];
      totals := totals.Add(meals[i].mealType, meals[i].totalCalories);
    }
    assert meals[..|meals|] == meals;
  }

  /** The nested forEach that totals the protein of every item. */
  method SumProtein(meals: seq<Meal>) returns (totalProtein: real)
    ensures totalProtein == TotalGrams(meals, Protein)
  {
    totalProtein := 0.0;
    for i := 0 to |meals|
      invariant totalProtein == TotalGrams(meals[..i], Protein)
    {
      var items := meals[i].items;
      assert meals[..i + 1][..i] == meals[..i];
      ghost var before := totalProtein;
      for j := 0 to |items|
        invariant totalProtein == before + ItemsGrams(items[..j], Protein)
      {
        assert items[..j + 1][..j] == items[..j];
        totalProtein := totalProtein + items[j].protein;
      }
      assert items[..|items|] == items;
    }
    assert meals[..|meals|] == meals;
  }

  /**
   * The insights in the order the handler pushes them: the calorie
   * comparison, then at most one meal type warning, then at most one protein
   * insight.
   */
  function InsightList(average: real, target: int, mealTypeCalories: MealTypeTotals,
                       averageProtein: real, recommended: real): (r: seq<Insight>)
    ensures 1 <= |r| <= 3 && r[0] == CalorieInsight(average, target)
    ensures r[1..] == MealTypeInsights(mealTypeCalories, average) + ProteinInsights(averageProtein, recommended)
  {
    [CalorieInsight(average, target)] + MealTypeInsights(mealTypeCalories, average)
    + ProteinInsights(averageProtein, recommended)
  }

  /**
   * The three insight checks of the handler in order, each pushing at most
   * one insight: the calorie comparison always pushes one, the meal type
   * check a warning, the protein check a hint or praise.
   */
  method PushInsights(average: real, target: int, mealTypeCalories: MealTypeTotals,
                      averageProtein: real, recommended: real) returns (insights: seq<Insight>)
    ensures insights == InsightList(average, target, mealTypeCalories, averageProtein, recommended)
  {
    insights := [];
    if average > target as real * 1.1 {
      insights := insights + [CaloriesAbove(Round(average), PercentAbove(average, target))];
    } else if average < target as real * 0.9 {
      insights := insights + [CaloriesBelow(Round(average))];
    } else {
      insights := insights + [CaloriesOnTarget];
    }

    var highestMealType := HighestMealType(mealTypeCalories);
    if mealTypeCalories.Get(highestMealType) > average * 0.4 {
      insights := insights + [MealTypeHigh(highestMealType)];
    }

    if averageProtein < recommended * 0.8 {
      insights := insights + [ProteinLow(Round(recommended - averageProtein))];
    } else if averageProtein >= recommended {
      insights := insights + [ProteinMet];
    }
  }

  /** The insights for the week's meals and the user's weight and target. */
  method WeekInsights(meals: seq<Meal>, figures: UserFigures) returns (insights: seq<Insight>)
    ensures insights == InsightList(DailyAverage(meals), figures.dailyCalorieTarget, ByType(meals),
                                    DailyProtein(meals), RecommendedProtein(figures.weight))
  {
    var mealTypeCalories := TallyMealTypes(meals);
    var totalProtein := SumProtein(meals);
    var averageProtein := totalProtein / 7.0;
    assert averageProtein == DailyProtein(meals);
    insights := PushInsights(DailyAverage(meals), figures.dailyCalorieTarget, mealTypeCalories,
                             averageProtein, RecommendedProtein(figures.weight));
  }

  /**
   * getInsights after its lookups: `user` is the result of the lookup by id
   * and `meals` the user's meals of the last seven days up to `now`.
   */
  method GetInsights(meals: seq<Meal>, user: Option<UserFigures>, now: int)
    returns (result: Result<InsightsReport, Failure>)
    ensures user.None? <==> result == Err(UserNotFound)
    ensures result.Ok? ==>
              result.value.insights
              == InsightList(DailyAverage(meals), user.value.dailyCalorieTarget, ByType(meals),
                             DailyProtein(meals), RecommendedProtein(user.value.weight))
    ensures result.Ok? ==>
              result.value.trends
              == Trends(CaloriesTrend(meals, now), Stable, GoalProgress(DailyAverage(meals), user.value.dailyCalorieTarget))
  {
    if user.None? {
      return Err(UserNotFound);
    }
    var insights := WeekInsights(meals, user.value);
    var trends := Trends(CaloriesTrend(meals, now), Stable, GoalProgress(DailyAverage(meals), user.value.dailyCalorieTarget));
    result := Ok(InsightsReport(insights, trends));
  }
}
