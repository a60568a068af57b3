/** `NutritionCalculator` of nutrition_tracker/utils/nutrition_calculator.py:
    daily calorie and macro goals from a body profile (revised Harris-Benedict
    BMR, an activity multiplier, a 30/45/25 macro split), and the field-wise
    total of a list of food items.

    Every constant of the source is a decimal literal, so the arithmetic below
    is exact over `real`; Python's `round` is written out (ties to even). */
module NutritionCalculator {
  import opened Common
  import opened NutrientTotals

  /** What Python's `round(x)` promises of `n`: no integer is nearer to `x`,
      and on a tie `n` is the even one. */
  predicate RoundsTo(x: real, n: int)
  {
    && -0.5 <= n as real - x <= 0.5
    && ((n as real - x == 0.5 || x - n as real == 0.5) ==> n % 2 == 0)
  }

  /** `round(x)` in Python. */
  function Round(x: real): (n: int)
    ensures RoundsTo(x, n)
  {
    var f := x.Floor;
    var d := x - f as real;
    if d < 0.5 then f
    else if d > 0.5 then f + 1
    else if f % 2 == 0 then f
    else f + 1
  }

  /** The two properties of `Round` single out one integer: they are a complete
      description of Python's rounding. */
  lemma RoundIsUnique(x: real, n: int)
    requires RoundsTo(x, n)
    ensures n == Round(x)
  {
  }

  /** Rounding never reverses an order. */
  lemma RoundMonotone(x: real, y: real)
    requires x <= y
    ensures Round(x) <= Round(y)
  {
  }

  /** `gender.lower() == 'male'`: every other string takes the female formula. */
  predicate IsMale(gender: string)
  {
    Lower(gender) == "male"
  }

  /** Basal metabolic rate, revised Harris-Benedict equation, chosen by sex. */
  function Bmr(weightKg: real, heightCm: real, age: real, gender: string): real
  {
    if IsMale(gender) then 88.362 + 13.397 * weightKg + 4.799 * heightCm - 5.677 * age
    else 447.593 + 9.247 * weightKg + 3.098 * heightCm - 4.330 * age
  }

  /** The `activity_multipliers` dictionary; keys are lower case and the most
      active level is spelt with a space. */
  const ActivityMultipliers: map<string, real> :=
    map["sedentary" := 1.2, "light" := 1.375, "moderate" := 1.55,
        "active" := 1.725, "very active" := 1.9]

  /** Multiplier used when the level is not a key of the table. */
  const DefaultMultiplier: real := 1.2

  /** `activity_multipliers.get(activity_level.lower(), 1.2)`. */
  function ActivityMultiplier(activityLevel: string): (m: real)
    ensures 1.2 <= m <= 1.9
  {
    var key := Lower(activityLevel);
    if key in ActivityMultipliers then ActivityMultipliers[key] else DefaultMultiplier
  }

  /** The default 1.2 is used exactly for "sedentary" and for levels missing
      from the table: no other level shares its multiplier. */
  lemma DefaultMultiplierExactly(activityLevel: string)
    ensures ActivityMultiplier(activityLevel) == DefaultMultiplier
        <==> Lower(activityLevel) !in ActivityMultipliers || Lower(activityLevel) == "sedentary"
  {
  }

  /** The unrounded `daily_calories` from which all four goals are rounded. */
  function DailyCalories(weightKg: real, heightCm: real, age: real, gender: string, activityLevel: string): real
  {
    Bmr(weightKg, heightCm, age, gender) * ActivityMultiplier(activityLevel)
  }

  /** The dict returned by `calculate_daily_needs`. */
  datatype DailyNeeds = DailyNeeds(calories: int, protein: int, carbs: int, fat: int)

  /** Calories per gram (Atwater factors) and the share of the calories given
      to each macronutrient. */
  const ProteinKcalPerGram: real := 4.0
  const CarbsKcalPerGram: real := 4.0
  const FatKcalPerGram: real := 9.0

  /** The four goals drawn from one unrounded calorie figure: the calories
      themselves and the grams of protein (30% at 4 kcal/g), carbs (45% at
      4 kcal/g) and fat (25% at 9 kcal/g), each rounded on its own. */
  function SplitGoals(dailyCalories: real): (needs: DailyNeeds)
    ensures RoundsTo(dailyCalories, needs.calories)
    ensures RoundsTo(dailyCalories * 0.3 / 4.0, needs.protein)
    ensures RoundsTo(dailyCalories * 0.45 / 4.0, needs.carbs)
    ensures RoundsTo(dailyCalories * 0.25 / 9.0, needs.fat)
  {
    DailyNeeds(
      Round(dailyCalories),
      Round(dailyCalories * 0.3 / ProteinKcalPerGram),
      Round(dailyCalories * 0.45 / CarbsKcalPerGram),
      Round(dailyCalories * 0.25 / FatKcalPerGram))
  }

  /** `calculate_daily_needs`: each goal is the integer nearest to its share of
      the same unrounded daily calories; nothing is rounded earlier. */
  function CalculateDailyNeeds(weightKg: real, heightCm: real, age: real, gender: string, activityLevel: string): (needs: DailyNeeds)
    ensures var d := DailyCalories(weightKg, heightCm, age, gender, activityLevel);
      && RoundsTo(d, needs.calories)
      && RoundsTo(d * 0.3 / 4.0, needs.protein)
      && RoundsTo(d * 0.45 / 4.0, needs.carbs)
      && RoundsTo(d * 0.25 / 9.0, needs.fat)
  {
    SplitGoals(DailyCalories(weightKg, heightCm, age, gender, activityLevel))
  }

  /** Goals depend on the gender only through the BMR it selects. */
  lemma SameBmrSameCalories(weightKg: real, heightCm: real, age: real, gender1: string, gender2: string, activityLevel: string)
    requires Bmr(weightKg, heightCm, age, gender1) == Bmr(weightKg, heightCm, age, gender2)
    ensures DailyCalories(weightKg, heightCm, age, gender1, activityLevel) == DailyCalories(weightKg, heightCm, age, gender2, activityLevel)
  {
  }

  /** Goals depend on the activity level only through its multiplier. */
  lemma SameMultiplierSameCalories(weightKg: real, heightCm: real, age: real, gender: string, level1: string, level2: string)
    requires ActivityMultiplier(level1) == ActivityMultiplier(level2)
    ensures DailyCalories(weightKg, heightCm, age, gender, level1) == DailyCalories(weightKg, heightCm, age, gender, level2)
  {
    var b := Bmr(weightKg, heightCm, age, gender);
    var m := ActivityMultiplier(level1);
    assert DailyCalories(weightKg, heightCm, age, gender, level1) == b * m;
    assert DailyCalories(weightKg, heightCm, age, gender, level2) == b * m;
  }

  /** The shares add up to the whole: 30% + 45% + 25% of the calories,
      converted to grams and back, is exactly the daily calories. */
  lemma MacroSharesAddUp(d: real)
    ensures (d * 0.3 / 4.0) * 4.0 + (d * 0.45 / 4.0) * 4.0 + (d * 0.25 / 9.0) * 9.0 == d
  {
  }

  /** After each goal is rounded on its own, the calories implied by the macro
      goals (4 kcal/g protein and carbs, 9 kcal/g fat) are within 8.5 kcal of
      the unrounded daily calories, and the calorie goal within 0.5. */
  lemma MacroEnergyMatchesCalories(weightKg: real, heightCm: real, age: real, gender: string, activityLevel: string)
    ensures var needs := CalculateDailyNeeds(weightKg, heightCm, age, gender, activityLevel);
      var d := DailyCalories(weightKg, heightCm, age, gender, activityLevel);
      var energy := 4.0 * needs.protein as real + 4.0 * needs.carbs as real + 9.0 * needs.fat as real;
      -8.5 <= energy - d <= 8.5 && -9.0 <= energy - needs.calories as real <= 9.0
  {
    var d := DailyCalories(weightKg, heightCm, age, gender, activityLevel);
    MacroSharesAddUp(d);
  }

  /** The selectbox labels "Male" and "Female" take the two formulas. */
  lemma GenderLabels()
    ensures IsMale("Male") && IsMale("male") && !IsMale("Female") && !IsMale("female")
  {
    assert Lower("Female")[0] == 'f';
    assert Lower("female")[0] == 'f';
  }

  /** Every gender string whose lower-case form is not "male" gets the female
      formula, so any two such strings give the same goals. */
  lemma NonMaleUsesFemaleFormula(weightKg: real, heightCm: real, age: real, gender: string, other: string, activityLevel: string)
    requires Lower(gender) != "male" && Lower(other) != "male"
    ensures Bmr(weightKg, heightCm, age, gender) == 447.593 + 9.247 * weightKg + 3.098 * heightCm - 4.330 * age
    ensures CalculateDailyNeeds(weightKg, heightCm, age, gender, activityLevel)
         == CalculateDailyNeeds(weightKg, heightCm, age, other, activityLevel)
  {
    SameBmrSameCalories(weightKg, heightCm, age, gender, other, activityLevel);
  }

  /** The male formula is chosen case-insensitively. */
  lemma MaleFormula(weightKg: real, heightCm: real, age: real, gender: string)
    requires Lower(gender) == "male"
    ensures Bmr(weightKg, heightCm, age, gender) == 88.362 + 13.397 * weightKg + 4.799 * heightCm - 5.677 * age
  {
  }

  /** An activity level that is not in the table, in any case, gives exactly
      the goals of "sedentary" (in any case) for the same profile. */
  lemma UnmappedActivityIsSedentary(weightKg: real, heightCm: real, age: real, gender: string, activityLevel: string, sedentary: string)
    requires Lower(activityLevel) !in ActivityMultipliers
    requires Lower(sedentary) == "sedentary"
    ensures CalculateDailyNeeds(weightKg, heightCm, age, gender, activityLevel)
         == CalculateDailyNeeds(weightKg, heightCm, age, gender, sedentary)
  {
    assert ActivityMultiplier(activityLevel) == ActivityMultiplier(sedentary);
    SameMultiplierSameCalories(weightKg, heightCm, age, gender, activityLevel, sedentary);
  }

  /** Levels that differ only in letter case give the same goals. */
  lemma ActivityLevelIgnoresCase(weightKg: real, heightCm: real, age: real, gender: string, level1: string, level2: string)
    requires Lower(level1) == Lower(level2)
    ensures CalculateDailyNeeds(weightKg, heightCm, age, gender, level1)
         == CalculateDailyNeeds(weightKg, heightCm, age, gender, level2)
  {
    assert ActivityMultiplier(level1) == ActivityMultiplier(level2);
    SameMultiplierSameCalories(weightKg, heightCm, age, gender, level1, level2);
  }

  /** Scaling by a positive factor keeps the order, strictly. */
  lemma ScalePreservesOrder(b1: real, b2: real, m: real)
    requires b1 <= b2 && m > 0.0
    ensures b1 * m <= b2 * m
    ensures b1 < b2 ==> b1 * m < b2 * m
  {
    assert b2 * m - b1 * m == (b2 - b1) * m;
  }

  /** A larger calorie figure never gives a smaller goal. */
  lemma SplitGoalsMonotone(d1: real, d2: real)
    requires d1 <= d2
    ensures var n1 := SplitGoals(d1);
      var n2 := SplitGoals(d2);
      n1.calories <= n2.calories && n1.protein <= n2.protein && n1.carbs <= n2.carbs && n1.fat <= n2.fat
  {
    RoundMonotone(d1, d2);
    RoundMonotone(d1 * 0.3 / 4.0, d2 * 0.3 / 4.0);
    RoundMonotone(d1 * 0.45 / 4.0, d2 * 0.45 / 4.0);
    RoundMonotone(d1 * 0.25 / 9.0, d2 * 0.25 / 9.0);
  }

  /** The unrounded daily calories rise with weight and height and fall with
      age, strictly, for a fixed sex and activity level. */
  lemma DailyCaloriesMonotone(
    weight1: real, height1: real, age1: real, weight2: real, height2: real, age2: real,
    gender: string, activityLevel: string)
    requires weight1 <= weight2 && height1 <= height2 && age1 >= age2
    ensures DailyCalories(weight1, height1, age1, gender, activityLevel) <= DailyCalories(weight2, height2, age2, gender, activityLevel)
    ensures (weight1 < weight2 || height1 < height2 || age1 > age2) ==>
      DailyCalories(weight1, height1, age1, gender, activityLevel) < DailyCalories(weight2, height2, age2, gender, activityLevel)
  {
    var b1 := Bmr(weight1, height1, age1, gender);
    var b2 := Bmr(weight2, height2, age2, gender);
    assert b1 <= b2;
    assert (weight1 < weight2 || height1 < height2 || age1 > age2) ==> b1 < b2;
    ScalePreservesOrder(b1, b2, ActivityMultiplier(activityLevel));
  }

  /** For a fixed sex and activity level, more weight, more height or fewer
      years never lower any of the four goals. */
  lemma NeedsRiseWithWeightAndHeightFallWithAge(
    weight1: real, height1: real, age1: real, weight2: real, height2: real, age2: real,
    gender: string, activityLevel: string)
    requires weight1 <= weight2 && height1 <= height2 && age1 >= age2
    ensures var n1 := CalculateDailyNeeds(weight1, height1, age1, gender, activityLevel);
      var n2 := CalculateDailyNeeds(weight2, height2, age2, gender, activityLevel);
      n1.calories <= n2.calories && n1.protein <= n2.protein && n1.carbs <= n2.carbs && n1.fat <= n2.fat
  {
    DailyCaloriesMonotone(weight1, height1, age1, weight2, height2, age2, gender, activityLevel);
    SplitGoalsMonotone(DailyCalories(weight1, height1, age1, gender, activityLevel),
                       DailyCalories(weight2, height2, age2, gender, activityLevel));
  }

  /** Within the ranges the profile form accepts (weight 30-200 kg, height
      100-250 cm, age 15-100), every goal is positive whatever the gender and
      activity strings. */
  lemma NeedsPositiveOnFormRanges(weightKg: real, heightCm: real, age: real, gender: string, activityLevel: string)
    requires 30.0 <= weightKg <= 200.0 && 100.0 <= heightCm <= 250.0 && 15.0 <= age <= 100.0
    ensures var needs := CalculateDailyNeeds(weightKg, heightCm, age, gender, activityLevel);
      needs.calories > 0 && needs.protein > 0 && needs.carbs > 0 && needs.fat > 0
  {
    var b := Bmr(weightKg, heightCm, age, gender);
    BmrOnFormRanges(weightKg, heightCm, age, gender);
    var m := ActivityMultiplier(activityLevel);
    ScalePreservesOrder(402.0, b, m);
    ScalePreservesOrder(1.2, m, 402.0);
    assert DailyCalories(weightKg, heightCm, age, gender, activityLevel) == b * m;
    GoalsPositiveFrom(b * m);
  }

  /** On the form's ranges the smaller BMR is the male one at 30 kg, 100 cm
      and 100 years: 402.472 kcal. */
  lemma BmrOnFormRanges(weightKg: real, heightCm: real, age: real, gender: string)
    requires 30.0 <= weightKg <= 200.0 && 100.0 <= heightCm <= 250.0 && 15.0 <= age <= 100.0
    ensures Bmr(weightKg, heightCm, age, gender) >= 402.0
  {
  }

  /** Every goal drawn from at least 482.4 kcal (402 kcal at the lowest
      multiplier) is positive. */
  lemma GoalsPositiveFrom(d: real)
    requires d >= 402.0 * 1.2
    ensures var needs := SplitGoals(d);
      needs.calories > 0 && needs.protein > 0 && needs.carbs > 0 && needs.fat > 0
  {
  }

  /** A 70 kg, 170 cm, 30-year-old "Male" at "Moderate" activity: BMR 1671.672,
      daily calories 2591.0916, goals 2591 kcal, 194 g protein, 291 g carbs
      (from 291.497805) and 72 g fat. */
  lemma WorkedExample()
    ensures Bmr(70.0, 170.0, 30.0, "Male") == 1671.672
    ensures DailyCalories(70.0, 170.0, 30.0, "Male", "Moderate") == 2591.0916
    ensures CalculateDailyNeeds(70.0, 170.0, 30.0, "Male", "Moderate") == DailyNeeds(2591, 194, 291, 72)
  {
    GenderLabels();
    ModerateMultiplier();
    assert Bmr(70.0, 170.0, 30.0, "Male") == 1671.672;
    assert DailyCalories(70.0, 170.0, 30.0, "Male", "Moderate") == 1671.672 * 1.55;
    WorkedExampleGoals();
  }

  lemma ModerateMultiplier()
    ensures ActivityMultiplier("Moderate") == 1.55
  {
    LowerModerate();
    assert "moderate" in ActivityMultipliers && ActivityMultipliers["moderate"] == 1.55;
  }

  lemma LowerModerate()
    ensures Lower("Moderate") == "moderate"
  {
    var r := Lower("Moderate");
    assert |r| == 8;
    assert r[0] == 'm';
  }

  /** The four goals of the worked example, from its daily calories. */
  lemma WorkedExampleGoals()
    ensures SplitGoals(2591.0916) == DailyNeeds(2591, 194, 291, 72)
  {
    RoundIsUnique(2591.0916, 2591);
    RoundIsUnique(2591.0916 * 0.3 / 4.0, 194);
    RoundIsUnique(2591.0916 * 0.45 / 4.0, 291);
    RoundIsUnique(2591.0916 * 0.25 / 9.0, 72);
  }

  /** `calculate_meal_nutrients`: start from zeros and add each item's four
      fields in turn. */
  method CalculateMealNutrients(foodItems: seq<Nutrients>) returns (total: Nutrients)
    ensures total == Total(foodItems)
    ensures foodItems == [] ==> total == Zero
  {
    total := Zero;
    for i := 0 to |foodItems|
      invariant total == Total(foodItems[..i])
    {
      var item := foodItems[i];
      total := Nutrients(
        total.calories + item.calories,
        total.protein + item.protein,
        total.carbs + item.carbs,
        total.fat + item.fat);
      assert foodItems[..i + 1][..i] == foodItems[..i];
    }
    assert foodItems[..|foodItems|] == foodItems;
  }
}
