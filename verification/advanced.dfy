/** The two-column tracker: food rows keep only kcal, exercise rows are the
    full tracker's, and the balance is reduced to what is left of the daily
    target. Its logs only grow; it has no undo or clear. */
module Advanced {
  import opened Entries
  import Ledger
  import Balance

  function MealCalories(e: MealEntry): real
  {
    e.calories
  }

  /** total_in: the Calories column's sum, 0 for an empty log. */
  function TotalIn(log: seq<MealEntry>): (kcal: real)
    ensures kcal == Ledger.Sum(log, MealCalories)
  {
    if |log| > 0 then Ledger.Sum(log, MealCalories) else 0.0
  }

  /** "Add Food": one row at the end, earlier rows kept, and the intake
      total grows by the catalog's kcal times the quantity. */
  function AddFood(log: seq<MealEntry>, catalog: FoodCatalog, meal: Meal, food: string, qty: real)
    : (r: seq<MealEntry>)
    requires food in catalog
    ensures |r| == |log| + 1 && r[..|log|] == log
    ensures r[|log|].meal == meal && r[|log|].food == food && r[|log|].qty == qty
    ensures TotalIn(r) == TotalIn(log) + catalog[food].cals * qty
  {
    var e := MakeMealEntry(catalog, meal, food, qty);
    Ledger.SumAppend(log, e, MealCalories);
    Ledger.Append(log, e)
  }

  /** "Add Exercise": one row at the end, earlier rows kept, and the burn
      total grows by the activity's rate times the number of blocks. */
  function AddExercise(log: seq<ExerciseEntry>, rates: RateCatalog, activity: string, blocks: real)
    : (r: seq<ExerciseEntry>)
    requires activity in rates
    ensures |r| == |log| + 1 && r[..|log|] == log
    ensures r[|log|].activity == activity && r[|log|].minutes == blocks * BlockMinutes
    ensures Balance.TotalBurned(r) == Balance.TotalBurned(log) + rates[activity] * blocks
  {
    var e := MakeExerciseEntry(rates, activity, blocks);
    Ledger.SumAppend(log, e, Balance.Burned);
    Ledger.Append(log, e)
  }

  /** remaining = daily_needs - (total_in - total_out). */
  function Remaining(food: seq<MealEntry>, exercise: seq<ExerciseEntry>, dailyNeeds: real): (kcal: real)
    ensures kcal + Ledger.Sum(food, MealCalories) == dailyNeeds + Ledger.Sum(exercise, Balance.Burned)
  {
    dailyNeeds - (TotalIn(food) - Balance.TotalBurned(exercise))
  }

  /** On the same meals, the two-column tracker reports the same amount
      left as the full tracker: dropping the nutrient columns does not
      change the kcal total. */
  lemma RemainingAgreesWithFullTracker(food: seq<FoodEntry>, exercise: seq<ExerciseEntry>, dailyNeeds: real)
    requires dailyNeeds != 0.0
    ensures Remaining(Ledger.Map(food, Project), exercise, dailyNeeds)
         == Balance.Compute(food, exercise, dailyNeeds).remaining
  {
    Ledger.SumOfMap(food, Project, MealCalories, Balance.Calories);
  }
}
