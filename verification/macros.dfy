/**
 * Macro distribution: daily average grams of protein, carbohydrate and fat
 * over a week or a month, their calories at 4, 4 and 9 kcal per gram, and the
 * share of each in the macro calories.
 */
module Macros {

  import opened Calories
  import opened Meals

  /** One number per macro. */
  datatype MacroSplit = MacroSplit(protein: real, carbs: real, fat: real)
  {
    function Get(m: Macro): real
    {
      match m
      case Protein => protein
      case Carbs => carbs
      case Fat => fat
    }

    function Sum(): real
    {
      protein + carbs + fat
    }
  }

  datatype MacroStat = MacroStat(grams: real, calories: int, percentage: real)

  datatype MacroReport = MacroReport(protein: MacroStat, carbs: MacroStat, fat: MacroStat)

  /** The day divisor: thirty for the period "month", seven for anything else. */
  function PeriodDays(period: string): (days: real)
    ensures days == 30.0 <==> period == "month"
    ensures days == 7.0 <==> period != "month"
  {
    if period == "month" then 30.0 else 7.0
  }

  /** Energy per gram: 4 kcal for protein and carbohydrate, 9 kcal for fat. */
  function KcalPerGram(m: Macro): real
  {
    match m
    case Protein => 4.0
    case Carbs => 4.0
    case Fat => 9.0
  }

  /** Average grams per day of each macro, summed over every item of every meal. */
  function DailyGrams(meals: seq<Meal>, period: string): MacroSplit
  {
    var days := PeriodDays(period);
    MacroSplit(TotalGrams(meals, Protein) / days, TotalGrams(meals, Carbs) / days, TotalGrams(meals, Fat) / days)
  }

  function MacroCalories(grams: MacroSplit): MacroSplit
  {
    MacroSplit(grams.protein * KcalPerGram(Protein), grams.carbs * KcalPerGram(Carbs), grams.fat * KcalPerGram(Fat))
  }

  /** Each macro's share of the macro calories, in percent; all zero when there are none. */
  function Percentages(calories: MacroSplit): (r: MacroSplit)
    ensures calories.Sum() > 0.0 ==> r.protein * calories.Sum() == calories.protein * 100.0
    ensures calories.Sum() > 0.0 ==> r.carbs * calories.Sum() == calories.carbs * 100.0
    ensures calories.Sum() > 0.0 ==> r.fat * calories.Sum() == calories.fat * 100.0
    ensures calories.Sum() <= 0.0 ==> r == MacroSplit(0.0, 0.0, 0.0)
  {
    var total := calories.Sum();
    MacroSplit(Share(calories.protein, total), Share(calories.carbs, total), Share(calories.fat, total))
  }

  /** `total > 0 ? (part / total) * 100 : 0` */
  function Share(part: real, total: real): (r: real)
    ensures total > 0.0 ==> r * total == part * 100.0
    ensures total <= 0.0 ==> r == 0.0
  {
    if total > 0.0 then part / total * 100.0 else 0.0
  }

  /** The percentage guard: no macro calories means three zero percentages. */
  lemma ZeroCaloriesZeroPercent(calories: MacroSplit)
    requires calories.Sum() <= 0.0
    ensures Percentages(calories) == MacroSplit(0.0, 0.0, 0.0)
  {
  }

  lemma ShareAtMostWhole(part: real, total: real)
    requires 0.0 <= part <= total && total > 0.0
    ensures 0.0 <= Share(part, total) <= 100.0
  {
    assert part / total <= 1.0 by {
      assert part == (part / total) * total;
    }
  }

  /** Parts that make up a positive total have fractions that make up one. */
  lemma FractionsMakeOne(a: real, b: real, c: real)
    requires a + b + c > 0.0
    ensures a / (a + b + c) + b / (a + b + c) + c / (a + b + c) == 1.0
  {
    var t := a + b + c;
    var x, y, z := a / t, b / t, c / t;
    assert x * t == a && y * t == b && z * t == c;
    assert (x + y + z) * t == x * t + y * t + z * t;
    assert (x + y + z - 1.0) * t == 0.0;
  }

  /** With some macro calories, each unrounded percentage is in [0, 100] and the three add up to 100. */
  lemma PercentagesAddUp(calories: MacroSplit)
    requires calories.protein >= 0.0 && calories.carbs >= 0.0 && calories.fat >= 0.0
    requires calories.Sum() > 0.0
    ensures var pct := Percentages(calories);
            0.0 <= pct.protein <= 100.0 && 0.0 <= pct.carbs <= 100.0 && 0.0 <= pct.fat <= 100.0
            && pct.Sum() == 100.0
  {
    var p, c, f := calories.protein, calories.carbs, calories.fat;
    var total := calories.Sum();
    ShareAtMostWhole(p, total);
    ShareAtMostWhole(c, total);
    ShareAtMostWhole(f, total);
    FractionsMakeOne(p, c, f);
    assert Share(p, total) + Share(c, total) + Share(f, total) == (p / total + c / total + f / total) * 100.0;
  }

  /**
   * Three shares that add up to 100, each rounded to one decimal, add up to
   * between 99.9 and 100.1: each rounding moves a share by less than 0.05 and
   * the rounded sum is a whole number of tenths.
   */
  lemma RoundedSharesNearHundred(a: real, b: real, c: real)
    requires a + b + c == 100.0
    ensures 99.9 <= RoundTenth(a) + RoundTenth(b) + RoundTenth(c) <= 100.1
  {
    var x, y, z := RoundTenth(a), RoundTenth(b), RoundTenth(c);
    var n := (x * 10.0).Floor + (y * 10.0).Floor + (z * 10.0).Floor;
    assert n as real == (x + y + z) * 10.0;
    assert 998.5 < n as real <= 1001.5;
  }

  /** The reported figures for one macro. */
  function Stat(grams: MacroSplit, m: Macro): MacroStat
  {
    var calories := MacroCalories(grams);
    MacroStat(RoundTenth(grams.Get(m)), Round(calories.Get(m)), RoundTenth(Percentages(calories).Get(m)))
  }

  /** The nested loops that total each macro over every item of every meal. */
  method SumMacroGrams(meals: seq<Meal>) returns (totalProtein: real, totalCarbs: real, totalFat: real)
    ensures totalProtein == TotalGrams(meals, Protein)
    ensures totalCarbs == TotalGrams(meals, Carbs)
    ensures totalFat == TotalGrams(meals, Fat)
  {
    totalProtein, totalCarbs, totalFat := 0.0, 0.0, 0.0;
    for i := 0 to |meals|
      invariant totalProtein == TotalGrams(meals[..i], Protein)
      invariant totalCarbs == TotalGrams(meals[..i], Carbs)
      invariant totalFat == TotalGrams(meals[..i], Fat)
    {
      var items := meals[i].items;
      assert meals[..i + 1][..i] == meals[..i];
      ghost var p, c, f := totalProtein, totalCarbs, totalFat;
      for j := 0 to |items|
        invariant totalProtein == p + ItemsGrams(items[..j], Protein)
        invariant totalCarbs == c + ItemsGrams(items[..j], Carbs)
        invariant totalFat == f + ItemsGrams(items[..j], Fat)
      {
        assert items[..j + 1][..j] == items[..j];
        totalProtein := totalProtein + items[j].protein;
        totalCarbs := totalCarbs + items[j].carbs;
        totalFat := totalFat + items[j].fat;
      }
      assert items[..|items|] == items;
    }
    assert meals[..|meals|] == meals;
  }

  /** getMacroDistribution without its query: `meals` are the meals of the period. */
  method MacroDistribution(meals: seq<Meal>, period: string) returns (report: MacroReport)
    ensures var grams := DailyGrams(meals, period);
            report == MacroReport(Stat(grams, Protein), Stat(grams, Carbs), Stat(grams, Fat))
  {
    var totalProtein, totalCarbs, totalFat := SumMacroGrams(meals);

    var days := PeriodDays(period);
    var avgProtein, avgCarbs, avgFat := totalProtein / days, totalCarbs / days, totalFat / days;

    var proteinCalories, carbsCalories, fatCalories := avgProtein * 4.0, avgCarbs * 4.0, avgFat * 9.0;
    var totalCalories := proteinCalories + carbsCalories + fatCalories;

    var proteinPercentage := if totalCalories > 0.0 then proteinCalories / totalCalories * 100.0 else 0.0;
    var carbsPercentage := if totalCalories > 0.0 then carbsCalories / totalCalories * 100.0 else 0.0;
    var fatPercentage := if totalCalories > 0.0 then fatCalories / totalCalories * 100.0 else 0.0;

    ghost var grams := DailyGrams(meals, period);
    assert avgProtein == grams.protein && avgCarbs == grams.carbs && avgFat == grams.fat;
    ghost var calories := MacroCalories(grams);
    assert proteinCalories == calories.protein && carbsCalories == calories.carbs && fatCalories == calories.fat;
    assert totalCalories == calories.Sum();
    ghost var percentages := Percentages(calories);
    assert proteinPercentage == percentages.protein;
    assert carbsPercentage == percentages.carbs;
    assert fatPercentage == percentages.fat;
    report := MacroReport(
      MacroStat(RoundTenth(avgProtein), Round(proteinCalories), RoundTenth(proteinPercentage)),
      MacroStat(RoundTenth(avgCarbs), Round(carbsCalories), RoundTenth(carbsPercentage)),
      MacroStat(RoundTenth(avgFat), Round(fatCalories), RoundTenth(fatPercentage)));
  }

  /** A macro with zero grams has zero calories and a zero share. */
  lemma ZeroGramsZeroFigures(grams: MacroSplit, m: Macro)
    requires grams.protein == 0.0 && grams.carbs == 0.0 && grams.fat == 0.0
    ensures grams.Get(m) == 0.0 && MacroCalories(grams).Get(m) == 0.0
    ensures Percentages(MacroCalories(grams)).Get(m) == 0.0
  {
    ZeroCaloriesZeroPercent(MacroCalories(grams));
  }

  /** Meals without any macro grams report zero grams, zero calories and zero percent for every macro. */
  lemma {:induction false} NoMacrosAllZero(meals: seq<Meal>, period: string, m: Macro)
    requires TotalGrams(meals, Protein) == 0.0 && TotalGrams(meals, Carbs) == 0.0 && TotalGrams(meals, Fat) == 0.0
    ensures Stat(DailyGrams(meals, period), m) == MacroStat(0.0, 0, 0.0)
  {
    var grams := DailyGrams(meals, period);
    ZeroGramsZeroFigures(grams, m);
    RoundZero(grams.Get(m));
    RoundZero(MacroCalories(grams).Get(m));
    RoundZero(Percentages(MacroCalories(grams)).Get(m));
  }

  /** For meals that obey the schema, the reported percentages come from shares that add up to 100. */
  lemma DistributionSharesAddUp(meals: seq<Meal>, period: string)
    requires AllValid(meals)
    ensures var calories := MacroCalories(DailyGrams(meals, period));
            calories.Sum() == 0.0 || Percentages(calories).Sum() == 100.0
  {
    TotalGramsNonNegative(meals, Protein);
    TotalGramsNonNegative(meals, Carbs);
    TotalGramsNonNegative(meals, Fat);
    var calories := MacroCalories(DailyGrams(meals, period));
    if calories.Sum() != 0.0 {
      PercentagesAddUp(calories);
    }
  }

  /**
   * With some macro calories, the three reported percentages add up to
   * between 99.9 and 100.1; the rounding to one decimal keeps them from
   * adding up to exactly 100.
   */
  lemma ReportedPercentagesNearHundred(meals: seq<Meal>, period: string)
    requires AllValid(meals)
    requires MacroCalories(DailyGrams(meals, period)).Sum() > 0.0
    ensures var grams := DailyGrams(meals, period);
            99.9 <= Stat(grams, Protein).percentage + Stat(grams, Carbs).percentage + Stat(grams, Fat).percentage <= 100.1
  {
    DistributionSharesAddUp(meals, period);
    var pct := Percentages(MacroCalories(DailyGrams(meals, period)));
    RoundedSharesNearHundred(pct.protein, pct.carbs, pct.fat);
  }

  /** 9 g protein, 9 g carbohydrate and 4 g fat a day: 36 kcal each, reported as 33.3 + 33.3 + 33.3 = 99.9. */
  lemma EqualThirdsReportNinetyNineNine()
    ensures var grams := MacroSplit(9.0, 9.0, 4.0);
            Stat(grams, Protein).percentage + Stat(grams, Carbs).percentage + Stat(grams, Fat).percentage == 99.9
  {
    var grams := MacroSplit(9.0, 9.0, 4.0);
    var calories := MacroCalories(grams);
    assert calories == MacroSplit(36.0, 36.0, 36.0);
    var third := Share(36.0, 108.0);
    assert third * 108.0 == 3600.0;
    assert Round(third * 10.0) == 333;
    assert Percentages(calories) == MacroSplit(third, third, third);
  }
}
