/**
 * Weekly analytics: seven zero-initialised day buckets, filled from the meals
 * of the window, rounded, and summarised into a total, an average over a fixed
 * seven days and per-macro daily averages.
 */
module Weekly {

  import opened Calories
  import opened Meals

  /** Number of day buckets; also the fixed divisor of every weekly average. */
  const WindowDays: nat := 7

  /** The running (unrounded) sums of one day bucket, keyed by its day index. */
  datatype DayTotals = DayTotals(date: int, calories: real, protein: real, carbs: real, fat: real)

  /** One reported day: calories rounded to a whole number, macros to one decimal. */
  datatype DailyStat = DailyStat(date: int, totalCalories: int, protein: real, carbs: real, fat: real)

  datatype MacroAverages = MacroAverages(protein: real, carbs: real, fat: real)

  datatype WeeklyReport = WeeklyReport(
    dailyStats: seq<DailyStat>,
    averageCalories: int,
    totalCalories: int,
    macroDistribution: MacroAverages)

  /**
   * What the bucket of `day` holds once every meal has been folded in: the
   * meals' own calorie totals, and macros summed over their items.
   */
  function Bucket(meals: seq<Meal>, day: int): (b: DayTotals)
    ensures b.date == day
  {
    var ms := OnDay(meals, day);
    DayTotals(day, DayCalories(meals, day), TotalGrams(ms, Protein), TotalGrams(ms, Carbs), TotalGrams(ms, Fat))
  }

  /** The calories of one day: the sum of its meals' totalCalories. */
  function DayCalories(meals: seq<Meal>, day: int): real
  {
    TotalCalories(OnDay(meals, day))
  }

  /** A bucket after one more meal of its day: its calories, and the macros of each of its items. */
  function AddMeal(b: DayTotals, meal: Meal): DayTotals
  {
    DayTotals(b.date, b.calories + meal.totalCalories,
              b.protein + ItemsGrams(meal.items, Protein),
              b.carbs + ItemsGrams(meal.items, Carbs),
              b.fat + ItemsGrams(meal.items, Fat))
  }

  /** The reported form of a bucket. */
  function Rounded(t: DayTotals): DailyStat
  {
    DailyStat(t.date, Round(t.calories), RoundTenth(t.protein), RoundTenth(t.carbs), RoundTenth(t.fat))
  }

  function SumCalories(stats: seq<DailyStat>): int
  {
    if stats == [] then 0 else SumCalories(stats[..|stats| - 1]) + stats[|stats| - 1].totalCalories
  }

  function MacroOf(stat: DailyStat, m: Macro): real
  {
    match m
    case Protein => stat.protein
    case Carbs => stat.carbs
    case Fat => stat.fat
  }

  function SumMacro(stats: seq<DailyStat>, m: Macro): real
  {
    if stats == [] then 0.0 else SumMacro(stats[..|stats| - 1], m) + MacroOf(stats[|stats| - 1], m)
  }

  /** Folding one more meal into the buckets changes only the bucket of its own day. */
  lemma BucketSnoc(meals: seq<Meal>, meal: Meal, day: int)
    ensures meal.day == day ==> Bucket(meals + [meal], day) == AddMeal(Bucket(meals, day), meal)
    ensures meal.day != day ==> Bucket(meals + [meal], day) == Bucket(meals, day)
  {
    assert (meals + [meal])[..|meals|] == meals;
    var ms := OnDay(meals, day);
    if meal.day == day {
      assert OnDay(meals + [meal], day) == ms + [meal];
      assert (ms + [meal])[..|ms|] == ms;
    } else {
      assert OnDay(meals + [meal], day) == ms;
    }
  }

  /** The `for (i < 7)` loop: one zero bucket for each day of the window. */
  method ZeroBuckets(startDay: int) returns (dateMap: map<int, DayTotals>)
    ensures forall d :: d in dateMap <==> startDay <= d < startDay + WindowDays
    ensures forall d :: d in dateMap ==> dateMap[d] == Bucket([], d)
  {
    dateMap := map[];
    for i := 0 to WindowDays
      invariant forall d :: d in dateMap <==> startDay <= d < startDay + i
      invariant forall d :: d in dateMap ==> dateMap[d] == DayTotals(d, 0.0, 0.0, 0.0, 0.0)
    {
      var date := startDay + i;
      dateMap := dateMap[date := DayTotals(date, 0.0, 0.0, 0.0, 0.0)];
    }
  }

  /** One meal added to its day's running sums: its calories, then each item's macros. */
  method AddToBucket(dayStats: DayTotals, meal: Meal) returns (r: DayTotals)
    ensures r == AddMeal(dayStats, meal)
  {
    r := dayStats.(calories := dayStats.calories + meal.totalCalories);
    for j := 0 to |meal.items|
      invariant r == DayTotals(dayStats.date, dayStats.calories + meal.totalCalories,
                               dayStats.protein + ItemsGrams(meal.items[..j], Protein),
                               dayStats.carbs + ItemsGrams(meal.items[..j], Carbs),
                               dayStats.fat + ItemsGrams(meal.items[..j], Fat))
    {
      var item := meal.items[j];
      assert meal.items[..j + 1][..j] == meal.items[..j];
      r := r.(protein := r.protein + item.protein, carbs := r.carbs + item.carbs, fat := r.fat + item.fat);
    }
    assert meal.items[..|meal.items|] == meal.items;
  }

  /** The meals.forEach: each meal goes into the bucket of its day; a meal of no bucket is skipped. */
  method FillBuckets(meals: seq<Meal>, startDay: int, zero: map<int, DayTotals>) returns (dateMap: map<int, DayTotals>)
    requires forall d :: d in zero <==> startDay <= d < startDay + WindowDays
    requires forall d :: d in zero ==> zero[d] == Bucket([], d)
    ensures forall d :: d in dateMap <==> startDay <= d < startDay + WindowDays
    ensures forall d :: d in dateMap ==> dateMap[d] == Bucket(meals, d)
  {
    dateMap := zero;
    for i := 0 to |meals|
      invariant forall d :: d in dateMap <==> startDay <= d < startDay + WindowDays
      invariant forall d :: d in dateMap ==> dateMap[d] == Bucket(meals[..i], d)
    {
      var meal := meals[i];
      assert meals[..i + 1] == meals[..i] + [meal];
      if meal.day in dateMap {
        var dayStats := AddToBucket(dateMap[meal.day], meal);
        dateMap := dateMap[meal.day := dayStats];
      }
      forall d | d in dateMap ensures dateMap[d] == Bucket(meals[..i + 1], d) {
        BucketSnoc(meals[..i], meal, d);
      }
    }
    assert meals[..|meals|] == meals;
  }

  /**
   * getWeeklyAnalytics without its queries: `meals` are the meals of the
   * window, `startDay` the day index of "now minus seven days".
   */
  method WeeklyAnalytics(meals: seq<Meal>, startDay: int) returns (report: WeeklyReport)
    ensures |report.dailyStats| == WindowDays
    ensures forall k :: 0 <= k < WindowDays ==>
              report.dailyStats[k] == Rounded(Bucket(meals, startDay + k))
    ensures forall k, l :: 0 <= k < l < |report.dailyStats| ==>
              report.dailyStats[k].date < report.dailyStats[l].date
    ensures meals == [] ==> forall k :: 0 <= k < WindowDays ==>
              report.dailyStats[k] == DailyStat(startDay + k, 0, 0.0, 0.0, 0.0)
    ensures report.totalCalories == SumCalories(report.dailyStats)
    ensures report.averageCalories == Round(report.totalCalories as real / 7.0)
    ensures report.macroDistribution == MacroAverages(
              RoundTenth(SumMacro(report.dailyStats, Protein) / 7.0),
              RoundTenth(SumMacro(report.dailyStats, Carbs) / 7.0),
              RoundTenth(SumMacro(report.dailyStats, Fat) / 7.0))
  {
    var dateMap := ZeroBuckets(startDay);
    dateMap := FillBuckets(meals, startDay, dateMap);

    // Emit the rounded days; they are pushed in ascending date order, so
    // sorting them by date leaves them as they are.
    var dailyStats: seq<DailyStat> := [];
    for k := 0 to WindowDays
      invariant |dailyStats| == k
      invariant forall l :: 0 <= l < k ==> dailyStats[l] == Rounded(Bucket(meals, startDay + l))
    {
      var stats := dateMap[startDay + k];
      dailyStats := dailyStats + [DailyStat(stats.date, Round(stats.calories), RoundTenth(stats.protein),
                                            RoundTenth(stats.carbs), RoundTenth(stats.fat))];
    }
    if meals == [] {
      forall k | 0 <= k < WindowDays
        ensures dailyStats[k] == DailyStat(startDay + k, 0, 0.0, 0.0, 0.0)
      {
        RoundZero(0.0);
      }
    }

    var totalCalories := SumCalories(dailyStats);
    var averageCalories := Round(totalCalories as real / 7.0);
    var macroDistribution := MacroAverages(
      RoundTenth(SumMacro(dailyStats, Protein) / 7.0),
      RoundTenth(SumMacro(dailyStats, Carbs) / 7.0),
      RoundTenth(SumMacro(dailyStats, Fat) / 7.0));
    report := WeeklyReport(dailyStats, averageCalories, totalCalories, macroDistribution);
  }

  /** The meals whose day lies in the `count` days starting at `first`. */
  function InWindow(meals: seq<Meal>, first: int, count: nat): (r: seq<Meal>)
    ensures |r| <= |meals|
  {
    if meals == [] then []
    else
      var last := meals[|meals| - 1];
      InWindow(meals[..|meals| - 1], first, count)
        + (if first <= last.day < first + count then [last] else [])
  }

  /** Unrounded calories of the first `count` buckets added together. */
  function BucketCalories(meals: seq<Meal>, first: int, count: nat): real
  {
    if count == 0 then 0.0
    else BucketCalories(meals, first, count - 1) + DayCalories(meals, first + count - 1)
  }

  /** Widening the window by its last day adds exactly the calories of that day. */
  lemma {:induction false} WindowGrowsByOneDay(meals: seq<Meal>, first: int, count: nat)
    requires count > 0
    ensures TotalCalories(InWindow(meals, first, count))
            == TotalCalories(InWindow(meals, first, count - 1)) + DayCalories(meals, first + count - 1)
  {
    if meals != [] {
      var init, last := meals[..|meals| - 1], meals[|meals| - 1];
      WindowGrowsByOneDay(init, first, count);
      var wide, narrow, day := InWindow(init, first, count), InWindow(init, first, count - 1), OnDay(init, first + count - 1);
      if first <= last.day < first + count - 1 {
        assert InWindow(meals, first, count) == wide + [last];
        assert InWindow(meals, first, count - 1) == narrow + [last];
        assert OnDay(meals, first + count - 1) == day;
        TotalCaloriesSnoc(wide, last);
        TotalCaloriesSnoc(narrow, last);
      } else if last.day == first + count - 1 {
        assert InWindow(meals, first, count) == wide + [last];
        assert InWindow(meals, first, count - 1) == narrow;
        assert OnDay(meals, first + count - 1) == day + [last];
        TotalCaloriesSnoc(wide, last);
        TotalCaloriesSnoc(day, last);
      } else {
        assert InWindow(meals, first, count) == wide;
        assert InWindow(meals, first, count - 1) == narrow;
        assert OnDay(meals, first + count - 1) == day;
      }
    }
  }

  /**
   * No meal is counted twice or lost: together the buckets hold exactly the
   * calories of the meals whose day lies in the window.
   */
  lemma {:induction false} BucketsHoldWindow(meals: seq<Meal>, first: int, count: nat)
    ensures BucketCalories(meals, first, count) == TotalCalories(InWindow(meals, first, count))
  {
    if count == 0 {
      InWindowEmpty(meals, first);
    } else {
      BucketsHoldWindow(meals, first, count - 1);
      WindowGrowsByOneDay(meals, first, count);
    }
  }

  lemma {:induction false} InWindowEmpty(meals: seq<Meal>, first: int)
    ensures InWindow(meals, first, 0) == []
  {
    if meals != [] {
      InWindowEmpty(meals[..|meals| - 1], first);
    }
  }

  lemma {:induction false} InWindowKeepsAll(meals: seq<Meal>, first: int, count: nat)
    requires forall i :: 0 <= i < |meals| ==> first <= meals[i].day < first + count
    ensures InWindow(meals, first, count) == meals
  {
    if meals != [] {
      InWindowKeepsAll(meals[..|meals| - 1], first, count);
    }
  }

  /** When every meal lies in the week, the seven buckets hold all their calories. */
  lemma WeekHoldsAllCalories(meals: seq<Meal>, startDay: int)
    requires forall i :: 0 <= i < |meals| ==> startDay <= meals[i].day < startDay + WindowDays
    ensures BucketCalories(meals, startDay, WindowDays) == TotalCalories(meals)
  {
    BucketsHoldWindow(meals, startDay, WindowDays);
    InWindowKeepsAll(meals, startDay, WindowDays);
  }

  /** A meal whose day has no bucket, wherever it sits in the list, changes no bucket. */
  lemma SkippedMealChangesNoBucket(before: seq<Meal>, meal: Meal, after: seq<Meal>, startDay: int)
    requires !(startDay <= meal.day < startDay + WindowDays)
    ensures forall d :: startDay <= d < startDay + WindowDays ==>
              Bucket(before + [meal] + after, d) == Bucket(before + after, d)
  {
    forall d | startDay <= d < startDay + WindowDays
      ensures Bucket(before + [meal] + after, d) == Bucket(before + after, d)
    {
      OtherDayMealIgnored(before, meal, after, d);
    }
  }

  /**
   * The buckets start seven days before today, so a meal logged today is
   * fetched but lands in no bucket.
   */
  lemma TodaysMealIsDropped(before: seq<Meal>, meal: Meal, after: seq<Meal>, startDay: int)
    requires meal.day == startDay + WindowDays
    ensures forall d :: startDay <= d < startDay + WindowDays ==>
              Bucket(before + [meal] + after, d) == Bucket(before + after, d)
  {
    SkippedMealChangesNoBucket(before, meal, after, startDay);
  }
  /**
   * Each day is rounded before the days are added up, so a total of `n`
   * rounded days stays within n / 2 kcal of the unrounded calories.
   */
  lemma {:induction false} RoundedDaysNearExact(stats: seq<DailyStat>, meals: seq<Meal>, first: int)
    requires forall k :: 0 <= k < |stats| ==> stats[k].totalCalories == Round(DayCalories(meals, first + k))
    ensures BucketCalories(meals, first, |stats|) - 0.5 * |stats| as real <= SumCalories(stats) as real
    ensures SumCalories(stats) as real <= BucketCalories(meals, first, |stats|) + 0.5 * |stats| as real
  {
    if stats == [] {
      assert SumCalories(stats) == 0 && BucketCalories(meals, first, 0) == 0.0;
    } else {
      var n := |stats|;
      var prefix := stats[..n - 1];
      RoundedDaysNearExact(prefix, meals, first);
      var day := DayCalories(meals, first + n - 1);
      assert stats[n - 1].totalCalories == Round(day);
      NearStep(BucketCalories(meals, first, n - 1), SumCalories(prefix), day, stats[n - 1].totalCalories, n);
      assert SumCalories(stats) == SumCalories(prefix) + stats[n - 1].totalCalories;
      BucketCaloriesStep(meals, first, n);
    }
  }

  lemma BucketCaloriesStep(meals: seq<Meal>, first: int, count: nat)
    requires count > 0
    ensures BucketCalories(meals, first, count) == BucketCalories(meals, first, count - 1) + DayCalories(meals, first + count - 1)
  {
  }

  /** Adding one rounded day to a total within (n - 1) / 2 of exact keeps it within n / 2. */
  lemma NearStep(exact: real, sum: int, day: real, r: int, n: nat)
    requires n > 0
    requires exact - 0.5 * (n - 1) as real <= sum as real <= exact + 0.5 * (n - 1) as real
    requires r == Round(day)
    ensures exact + day - 0.5 * n as real <= (sum + r) as real <= exact + day + 0.5 * n as real
  {
  }

  /**
   * When every meal lies in the week, the reported total is within 3.5 kcal
   * of the sum of the meals' calories.
   */
  lemma WeeklyTotalNearMeals(stats: seq<DailyStat>, meals: seq<Meal>, startDay: int)
    requires |stats| == WindowDays
    requires forall k :: 0 <= k < WindowDays ==> stats[k] == Rounded(Bucket(meals, startDay + k))
    requires forall i :: 0 <= i < |meals| ==> startDay <= meals[i].day < startDay + WindowDays
    ensures TotalCalories(meals) - 3.5 <= SumCalories(stats) as real <= TotalCalories(meals) + 3.5
  {
    forall k | 0 <= k < |stats|
      ensures stats[k].totalCalories == Round(DayCalories(meals, startDay + k))
    {
      assert stats[k] == Rounded(Bucket(meals, startDay + k));
    }
    RoundedDaysNearExact(stats, meals, startDay);
    WeekHoldsAllCalories(meals, startDay);
  }
}
