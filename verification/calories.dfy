/**
 * Calorie formulas of the nutrition backend: Mifflin-St Jeor basal metabolic
 * rate, total daily energy expenditure, the goal-adjusted daily calorie target,
 * body mass index and its category. All quantities are exact reals; JavaScript's
 * Math.round is Round below (ties go up).
 */
module Calories {

  datatype Gender = Male | Female

  datatype ActivityLevel = Sedentary | Light | Moderate | Active | VeryActive

  datatype Goal = Loss | Maintain | Gain

  datatype BmiCategory = Underweight | Normal | Overweight | Obese

  /** JavaScript Math.round: the integer nearest to x, halves rounded up. */
  function Round(x: real): (r: int)
    ensures r as real - 0.5 <= x < r as real + 0.5
  {
    (x + 0.5).Floor
  }

  /** Math.round(x * 10) / 10: x rounded to one decimal place. */
  function RoundTenth(x: real): (r: real)
    ensures (r * 10.0).Floor as real == r * 10.0
    ensures r - 0.05 <= x < r + 0.05
  {
    Round(x * 10.0) as real / 10.0
  }

  /** Rounding commutes with adding a whole number. */
  lemma RoundShift(x: real, k: int)
    ensures Round(x + k as real) == Round(x) + k
  {
    var r := Round(x);
    assert r as real + k as real - 0.5 <= x + k as real < r as real + k as real + 0.5;
  }

  /** Rounding never reverses the order of two numbers. */
  lemma RoundMonotone(x: real, y: real)
    requires x <= y
    ensures Round(x) <= Round(y)
  {
    var rx, ry := Round(x), Round(y);
    assert rx as real - 0.5 <= x <= y < ry as real + 0.5;
  }

  /** A whole number is its own rounding. */
  lemma RoundWhole(k: int)
    ensures Round(k as real) == k
  {
    RoundShift(0.0, k);
  }

  /**
   * Zero rounds to zero, to a whole number and to one decimal. The zero is a
   * parameter so that callers state it of their own terms (a sum that is
   * zero, say); with the literal written into the ensures, the verifier
   * unfolds Round and RoundTenth at the literal in every caller.
   */
  lemma RoundZero(x: real)
    requires x == 0.0
    ensures Round(x) == 0 && RoundTenth(x) == 0.0
  {
    RoundWhole(0);
    assert x * 10.0 == 0.0;
  }

  function GenderAdjustment(gender: Gender): int
  {
    if gender == Male then 5 else -161
  }

  /** Basal metabolic rate, Mifflin-St Jeor. */
  function BMR(weight: real, height: real, age: real, gender: Gender): (r: int)
    ensures r as real - 0.5 <= 10.0 * weight + 6.25 * height - 5.0 * age + GenderAdjustment(gender) as real
            < r as real + 0.5
  {
    Round(10.0 * weight + 6.25 * height - 5.0 * age + GenderAdjustment(gender) as real)
  }

  /** The integer gender adjustment is added before rounding, so the two BMRs differ by exactly 166. */
  lemma BmrGenderGap(weight: real, height: real, age: real)
    ensures BMR(weight, height, age, Male) - BMR(weight, height, age, Female) == 166
  {
    var base := 10.0 * weight + 6.25 * height - 5.0 * age;
    RoundShift(base - 161.0, 166);
    assert base - 161.0 + 166 as real == base + 5.0;
  }

  /** Position of an activity level in the order sedentary < light < moderate < active < very_active. */
  function ActivityRank(level: ActivityLevel): nat
  {
    match level
    case Sedentary => 0
    case Light => 1
    case Moderate => 2
    case Active => 3
    case VeryActive => 4
  }

  function ActivityMultiplier(level: ActivityLevel): (m: real)
    ensures 1.2 <= m <= 1.9
  {
    match level
    case Sedentary => 1.2
    case Light => 1.375
    case Moderate => 1.55
    case Active => 1.725
    case VeryActive => 1.9
  }

  /** Total daily energy expenditure: the BMR scaled by the activity multiplier. */
  function TDEE(bmr: int, level: ActivityLevel): (r: int)
    ensures r as real - 0.5 <= bmr as real * ActivityMultiplier(level) < r as real + 0.5
  {
    Round(bmr as real * ActivityMultiplier(level))
  }

  /** A higher activity level never lowers the TDEE of a non-negative BMR. */
  lemma TdeeMonotone(bmr: int, lower: ActivityLevel, higher: ActivityLevel)
    requires bmr >= 0
    requires ActivityRank(lower) <= ActivityRank(higher)
    ensures TDEE(bmr, lower) <= TDEE(bmr, higher)
  {
    assert ActivityMultiplier(lower) <= ActivityMultiplier(higher);
    var b := bmr as real;
    assert b * ActivityMultiplier(lower) <= b * ActivityMultiplier(higher);
    RoundMonotone(b * ActivityMultiplier(lower), b * ActivityMultiplier(higher));
  }

  function GoalAdjustment(goal: Goal): int
  {
    match goal
    case Loss => -500
    case Maintain => 0
    case Gain => 500
  }

  /**
   * The daily calorie target: TDEE plus the goal adjustment, rounded. The
   * rounding never changes the whole-number sum, so the target is the TDEE
   * moved by exactly -500, 0 or +500 kcal.
   */
  function DailyCalorieTarget(weight: real, height: real, age: real, gender: Gender,
                              level: ActivityLevel, goal: Goal): (r: int)
    ensures goal == Loss ==> r == TDEE(BMR(weight, height, age, gender), level) - 500
    ensures goal == Maintain ==> r == TDEE(BMR(weight, height, age, gender), level)
    ensures goal == Gain ==> r == TDEE(BMR(weight, height, age, gender), level) + 500
  {
    var sum := TDEE(BMR(weight, height, age, gender), level) + GoalAdjustment(goal);
    RoundWhole(sum);
    Round(sum as real)
  }

  /** For the same body data, gaining targets exactly 1000 kcal more than losing. */
  lemma GainMinusLoss(weight: real, height: real, age: real, gender: Gender, level: ActivityLevel)
    ensures DailyCalorieTarget(weight, height, age, gender, level, Gain)
            - DailyCalorieTarget(weight, height, age, gender, level, Loss) == 1000
  {
  }

  /**
   * Body mass index, kg / m^2, rounded to one decimal. Dividing twice by the
   * height in metres is the same real number as dividing once by its square.
   */
  function BMI(weight: real, height: real): (r: real)
    requires height > 0.0
    ensures r - 0.05 <= weight / (height / 100.0) / (height / 100.0) < r + 0.05
    ensures (r * 10.0).Floor as real == r * 10.0
  {
    var heightInMeters := height / 100.0;
    RoundTenth(weight / heightInMeters / heightInMeters)
  }

  function CategoryRank(c: BmiCategory): nat
  {
    match c
    case Underweight => 0
    case Normal => 1
    case Overweight => 2
    case Obese => 3
  }

  /** The BMI category, with thresholds 18.5, 25 and 30. */
  function BmiCategoryOf(bmi: real): (c: BmiCategory)
    ensures c == Underweight <==> bmi < 18.5
    ensures c == Normal <==> 18.5 <= bmi < 25.0
    ensures c == Overweight <==> 25.0 <= bmi < 30.0
    ensures c == Obese <==> 30.0 <= bmi
  {
    if bmi < 18.5 then Underweight
    else if bmi < 25.0 then Normal
    else if bmi < 30.0 then Overweight
    else Obese
  }

  /** A larger BMI never falls in an earlier category. */
  lemma BmiCategoryMonotone(lower: real, higher: real)
    requires lower <= higher
    ensures CategoryRank(BmiCategoryOf(lower)) <= CategoryRank(BmiCategoryOf(higher))
  {
  }
}
