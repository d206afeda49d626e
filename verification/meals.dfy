/**
 * Meal records as the analytics engine reads them, and the sums and filters
 * over meal sequences that specify the aggregations. Every sum is defined
 * from the end of the sequence, so that a loop over a prefix extends it by
 * one element at a time.
 */
module Meals {

  datatype MealType = Breakfast | Lunch | Dinner | Snack

  datatype Macro = Protein | Carbs | Fat

  /** One food entry of a meal. */
  datatype FoodItem = FoodItem(calories: real, protein: real, carbs: real, fat: real, quantityGrams: real)

  /**
   * A logged meal. `createdAt` is the creation instant in milliseconds and
   * `day` the index of the calendar day that instant falls on.
   */
  datatype Meal = Meal(mealType: MealType, items: seq<FoodItem>, totalCalories: real, createdAt: int, day: int)

  /** The schema's lower bounds: no quantity of an item is negative. */
  predicate ValidItem(item: FoodItem)
  {
    item.calories >= 0.0 && item.protein >= 0.0 && item.carbs >= 0.0 && item.fat >= 0.0
    && item.quantityGrams >= 0.0
  }

  /** The schema's constraints on a stored meal: at least one item, nothing negative. */
  predicate ValidMeal(meal: Meal)
  {
    |meal.items| > 0 && meal.totalCalories >= 0.0
    && forall i :: 0 <= i < |meal.items| ==> ValidItem(meal.items[i])
  }

  predicate AllValid(meals: seq<Meal>)
  {
    forall i :: 0 <= i < |meals| ==> ValidMeal(meals[i])
  }

  function Grams(item: FoodItem, m: Macro): real
  {
    match m
    case Protein => item.protein
    case Carbs => item.carbs
    case Fat => item.fat
  }

  /** Grams of one macro over a list of items. */
  function ItemsGrams(items: seq<FoodItem>, m: Macro): real
  {
    if items == [] then 0.0
    else ItemsGrams(items[..|items| - 1], m) + Grams(items[|items| - 1], m)
  }

  /** Grams of one macro over every item of every meal; meal-level totals play no part. */
  function TotalGrams(meals: seq<Meal>, m: Macro): real
  {
    if meals == [] then 0.0
    else TotalGrams(meals[..|meals| - 1], m) + ItemsGrams(meals[|meals| - 1].items, m)
  }

  /** Sum of the meals' own totalCalories fields. */
  function TotalCalories(meals: seq<Meal>): real
  {
    if meals == [] then 0.0
    else TotalCalories(meals[..|meals| - 1]) + meals[|meals| - 1].totalCalories
  }

  /** The meals of one calendar day, in their original order. */
  function OnDay(meals: seq<Meal>, day: int): (r: seq<Meal>)
    ensures |r| <= |meals|
  {
    if meals == [] then []
    else
      var last := meals[|meals| - 1];
      OnDay(meals[..|meals| - 1], day) + (if last.day == day then [last] else [])
  }

  /** The meals of one meal type, in their original order. */
  function OfType(meals: seq<Meal>, t: MealType): (r: seq<Meal>)
    ensures |r| <= |meals|
  {
    if meals == [] then []
    else
      var last := meals[|meals| - 1];
      OfType(meals[..|meals| - 1], t) + (if last.mealType == t then [last] else [])
  }

  /** The meals created strictly before `instant`. */
  function Before(meals: seq<Meal>, instant: int): (r: seq<Meal>)
    ensures |r| <= |meals|
  {
    if meals == [] then []
    else
      var last := meals[|meals| - 1];
      Before(meals[..|meals| - 1], instant) + (if last.createdAt < instant then [last] else [])
  }

  /** The meals created at or after `instant`. */
  function NotBefore(meals: seq<Meal>, instant: int): (r: seq<Meal>)
    ensures |r| <= |meals|
  {
    if meals == [] then []
    else
      var last := meals[|meals| - 1];
      NotBefore(meals[..|meals| - 1], instant) + (if last.createdAt >= instant then [last] else [])
  }

  lemma {:induction false} ItemsGramsNonNegative(items: seq<FoodItem>, m: Macro)
    requires forall i :: 0 <= i < |items| ==> ValidItem(items[i])
    ensures ItemsGrams(items, m) >= 0.0
  {
    if items != [] {
      ItemsGramsNonNegative(items[..|items| - 1], m);
      assert ValidItem(items[|items| - 1]);
    }
  }

  /** With the schema's lower bounds, no macro total is negative. */
  lemma {:induction false} TotalGramsNonNegative(meals: seq<Meal>, m: Macro)
    requires AllValid(meals)
    ensures TotalGrams(meals, m) >= 0.0
  {
    if meals != [] {
      TotalGramsNonNegative(meals[..|meals| - 1], m);
      assert ValidMeal(meals[|meals| - 1]);
      ItemsGramsNonNegative(meals[|meals| - 1].items, m);
    }
  }

  /** With the schema's lower bounds, no calorie total is negative. */
  lemma {:induction false} TotalCaloriesNonNegative(meals: seq<Meal>)
    requires AllValid(meals)
    ensures TotalCalories(meals) >= 0.0
  {
    if meals != [] {
      TotalCaloriesNonNegative(meals[..|meals| - 1]);
      assert ValidMeal(meals[|meals| - 1]);
    }
  }

  lemma TotalCaloriesSnoc(meals: seq<Meal>, meal: Meal)
    ensures TotalCalories(meals + [meal]) == TotalCalories(meals) + meal.totalCalories
  {
    assert (meals + [meal])[..|meals|] == meals;
  }

  lemma {:induction false} TotalCaloriesAppend(a: seq<Meal>, b: seq<Meal>)
    ensures TotalCalories(a + b) == TotalCalories(a) + TotalCalories(b)
  {
    if b != [] {
      assert (a + b)[..|a + b| - 1] == a + b[..|b| - 1];
      TotalCaloriesAppend(a, b[..|b| - 1]);
    } else {
      assert a + b == a;
    }
  }

  /**
   * Every meal falls in exactly one of the two halves split at `instant`: the
   * halves hold all meals between them, and their calories add up to the total.
   */
  lemma {:induction false} HalvesPartition(meals: seq<Meal>, instant: int)
    ensures |Before(meals, instant)| + |NotBefore(meals, instant)| == |meals|
    ensures TotalCalories(Before(meals, instant)) + TotalCalories(NotBefore(meals, instant))
            == TotalCalories(meals)
  {
    if meals != [] {
      var init, last := meals[..|meals| - 1], meals[|meals| - 1];
      HalvesPartition(init, instant);
      assert TotalCalories(meals) == TotalCalories(init) + last.totalCalories;
      assert TotalCalories([last]) == last.totalCalories by {
        assert [last][..0] == [];
      }
      if last.createdAt < instant {
        assert Before(meals, instant) == Before(init, instant) + [last];
        assert NotBefore(meals, instant) == NotBefore(init, instant);
        TotalCaloriesAppend(Before(init, instant), [last]);
      } else {
        assert Before(meals, instant) == Before(init, instant);
        assert NotBefore(meals, instant) == NotBefore(init, instant) + [last];
        TotalCaloriesAppend(NotBefore(init, instant), [last]);
      }
    }
  }

  /** Filtering at an instant keeps schema-valid meals valid. */
  lemma {:induction false} FiltersKeepValid(meals: seq<Meal>, instant: int)
    requires AllValid(meals)
    ensures AllValid(Before(meals, instant)) && AllValid(NotBefore(meals, instant))
  {
    if meals != [] {
      var init, last := meals[..|meals| - 1], meals[|meals| - 1];
      assert AllValid(init) by {
        assert forall i :: 0 <= i < |init| ==> init[i] == meals[i];
      }
      assert ValidMeal(last);
      FiltersKeepValid(init, instant);
    }
  }

  /** A meal of another day, wherever it sits in the list, is not among the meals of `day`. */
  lemma {:induction false} OtherDayMealIgnored(before: seq<Meal>, meal: Meal, after: seq<Meal>, day: int)
    requires meal.day != day
    ensures OnDay(before + [meal] + after, day) == OnDay(before + after, day)
  {
    if after == [] {
      assert before + [meal] + after == before + [meal];
      assert (before + [meal])[..|before|] == before;
      assert before + after == before;
    } else {
      var init, last := after[..|after| - 1], after[|after| - 1];
      OtherDayMealIgnored(before, meal, init, day);
      assert (before + [meal] + after)[..|before + [meal] + after| - 1] == before + [meal] + init;
      assert (before + after)[..|before + after| - 1] == before + init;
    }
  }
}
