/** Catalog entries and the log entries derived from them. A food catalog
    maps a food name to its per-serving macros, an exercise catalog maps an
    activity name to kcal burned per 30-minute block, and the simplest
    calculator's catalog maps a food name to kcal per exchange. A log entry
    is the catalog value scaled by the chosen quantity. */
module Entries {

  datatype Meal = Breakfast | Lunch | Dinner | Snack

  function MealName(m: Meal): string
  {
    match m
    case Breakfast => "Breakfast"
    case Lunch => "Lunch"
    case Dinner => "Dinner"
    case Snack => "Snack"
  }

  /** Per-serving values of one food: kcal and grams of protein, carbs, fat. */
  datatype Macros = Macros(cals: real, prot: real, carbs: real, fat: real)

  type FoodCatalog = map<string, Macros>

  /** Name to one number: kcal per 30 minutes (exercise) or kcal per
      exchange (the single-value food table). */
  type RateCatalog = map<string, real>

  /** The serving and duration choices offered by the full tracker. */
  const Servings: seq<real> := [0.5, 1.0, 1.5, 2.0, 2.5, 3.0]

  /** Minutes in one duration block. */
  const BlockMinutes: real := 30.0

  /** A food-log row of the full tracker: meal, food, servings and the
      four scaled nutrient columns. */
  datatype FoodEntry = FoodEntry(meal: Meal, food: string, qty: real,
                                 calories: real, protein: real, carbs: real, fat: real)

  /** A food-log row of the two-column tracker: only kcal are scaled. */
  datatype MealEntry = MealEntry(meal: Meal, food: string, qty: real, calories: real)

  /** A row of the exchange calculator: food, quantity, kcal. */
  datatype PlainEntry = PlainEntry(food: string, qty: real, calories: real)

  /** An exercise-log row: activity, minutes and kcal burned. */
  datatype ExerciseEntry = ExerciseEntry(activity: string, minutes: real, burned: real)

  /** The row's numbers are the catalog's per-serving numbers times its
      quantity. */
  ghost predicate FoodDerived(e: FoodEntry, catalog: FoodCatalog)
  {
    && e.food in catalog
    && e.calories == catalog[e.food].cals * e.qty
    && e.protein == catalog[e.food].prot * e.qty
    && e.carbs == catalog[e.food].carbs * e.qty
    && e.fat == catalog[e.food].fat * e.qty
  }

  /** Burn and duration are in the catalog's proportion: kcal per 30
      minutes of the row equals the activity's rate. */
  ghost predicate ExerciseDerived(e: ExerciseEntry, rates: RateCatalog)
  {
    e.activity in rates && e.burned * BlockMinutes == rates[e.activity] * e.minutes
  }

  /** The "Add Meal" row: the chosen meal, food and servings, with each
      nutrient scaled from the catalog. */
  function MakeFoodEntry(catalog: FoodCatalog, meal: Meal, food: string, qty: real): (e: FoodEntry)
    requires food in catalog
    ensures e.meal == meal && e.food == food && e.qty == qty
    ensures FoodDerived(e, catalog)
  {
    var m := catalog[food];
    FoodEntry(meal, food, qty, m.cals * qty, m.prot * qty, m.carbs * qty, m.fat * qty)
  }

  /** The "Add Activity" row: `blocks` 30-minute blocks of the activity,
      i.e. blocks * 30 minutes and rate * blocks kcal. */
  function MakeExerciseEntry(rates: RateCatalog, activity: string, blocks: real): (e: ExerciseEntry)
    requires activity in rates
    ensures e.activity == activity
    ensures e.minutes == blocks * BlockMinutes
    ensures ExerciseDerived(e, rates)
  {
    ExerciseEntry(activity, blocks * BlockMinutes, rates[activity] * blocks)
  }

  /** The two-column tracker's "Add Food" row: the same kcal the full
      tracker computes, without the other nutrients. */
  function MakeMealEntry(catalog: FoodCatalog, meal: Meal, food: string, qty: real): (e: MealEntry)
    requires food in catalog
    ensures e == Project(MakeFoodEntry(catalog, meal, food, qty))
  {
    MealEntry(meal, food, qty, catalog[food].cals * qty)
  }

  /** Drops the columns the two-column tracker does not keep. */
  function Project(e: FoodEntry): MealEntry
  {
    MealEntry(e.meal, e.food, e.qty, e.calories)
  }

  /** The exchange calculator's row: per-unit kcal times quantity. With a
      catalog value that is not negative and the widget's minimum quantity
      of 0.5, the row's kcal are at least half the per-unit value. */
  function MakePlainEntry(catalog: RateCatalog, food: string, qty: real): (e: PlainEntry)
    requires food in catalog
    ensures e.food == food && e.qty == qty
    ensures e.calories == catalog[food] * qty
    ensures catalog[food] >= 0.0 && qty >= 0.5 ==> e.calories >= catalog[food] / 2.0 >= 0.0
  {
    var perUnit := catalog[food];
    assert perUnit >= 0.0 && qty >= 0.5 ==> perUnit * qty - perUnit * 0.5 == perUnit * (qty - 0.5) >= 0.0;
    PlainEntry(food, qty, perUnit * qty)
  }
}
