/** The full tracker's session: a food log and an exercise log, changed
    only by the six buttons of the two log tabs. Each button is one atomic
    step from one session value to the next. */
module Tracker {
  import opened Entries
  import Ledger
  import Balance

  datatype Session = Session(food: seq<FoodEntry>, exercise: seq<ExerciseEntry>)

  /** Both logs start empty. */
  const Fresh: Session := Session([], [])

  datatype Action =
    | AddMeal(meal: Meal, item: string, qty: real)
    | UndoFood
    | ClearFood
    | AddActivity(activity: string, blocks: real)
    | UndoExercise
    | ClearExercise

  /** Which buttons can be pressed: the add buttons always, with a name
      taken from the catalog's select box and an amount from the offered
      servings; undo and clear only while their log is non-empty, since
      they are drawn only then. */
  predicate Enabled(s: Session, a: Action, foods: FoodCatalog, rates: RateCatalog)
  {
    match a
    case AddMeal(_, item, qty) => item in foods && qty in Servings
    case UndoFood => |s.food| > 0
    case ClearFood => |s.food| > 0
    case AddActivity(activity, blocks) => activity in rates && blocks in Servings
    case UndoExercise => |s.exercise| > 0
    case ClearExercise => |s.exercise| > 0
  }

  predicate IsFoodAction(a: Action)
  {
    a.AddMeal? || a.UndoFood? || a.ClearFood?
  }

  /** One button press. A food button never touches the exercise log and
      an exercise button never touches the food log; an add grows its log
      by one entry at the end, an undo drops the last one, a clear empties
      the log. */
  function Step(s: Session, a: Action, foods: FoodCatalog, rates: RateCatalog): (r: Session)
    requires Enabled(s, a, foods, rates)
    ensures IsFoodAction(a) ==> r.exercise == s.exercise
    ensures !IsFoodAction(a) ==> r.food == s.food
    ensures a.AddMeal? ==> |r.food| == |s.food| + 1 && r.food[..|s.food|] == s.food
                           && r.food[|s.food|] == MakeFoodEntry(foods, a.meal, a.item, a.qty)
    ensures a.UndoFood? ==> r.food + [s.food[|s.food| - 1]] == s.food
    ensures a.ClearFood? ==> r.food == []
    ensures a.AddActivity? ==> |r.exercise| == |s.exercise| + 1 && r.exercise[..|s.exercise|] == s.exercise
                               && r.exercise[|s.exercise|] == MakeExerciseEntry(rates, a.activity, a.blocks)
    ensures a.UndoExercise? ==> r.exercise + [s.exercise[|s.exercise| - 1]] == s.exercise
    ensures a.ClearExercise? ==> r.exercise == []
  {
    match a
    case AddMeal(meal, item, qty) =>
      s.(food := Ledger.Append(s.food, MakeFoodEntry(foods, meal, item, qty)))
    case UndoFood => s.(food := Ledger.UndoLast(s.food))
    case ClearFood => s.(food := Ledger.Clear(s.food))
    case AddActivity(activity, blocks) =>
      s.(exercise := Ledger.Append(s.exercise, MakeExerciseEntry(rates, activity, blocks)))
    case UndoExercise => s.(exercise := Ledger.UndoLast(s.exercise))
    case ClearExercise => s.(exercise := Ledger.Clear(s.exercise))
  }

  /** Every row of both logs is its catalog entry scaled by its quantity,
      and every food quantity is one of the offered servings. */
  ghost predicate WellFormed(s: Session, foods: FoodCatalog, rates: RateCatalog)
  {
    && (forall i :: 0 <= i < |s.food| ==> FoodDerived(s.food[i], foods) && s.food[i].qty in Servings)
    && (forall i :: 0 <= i < |s.exercise| ==> ExerciseDerived(s.exercise[i], rates))
  }

  /** Every button keeps every row derived from the catalogs, with an
      offered serving size. */
  lemma StepKeepsWellFormed(s: Session, a: Action, foods: FoodCatalog, rates: RateCatalog)
    requires Enabled(s, a, foods, rates)
    requires WellFormed(s, foods, rates)
    ensures WellFormed(Step(s, a, foods, rates), foods, rates)
  {
  }

  /** Undo right after "Add Meal" restores the session exactly. */
  lemma UndoFoodAfterAddMeal(s: Session, meal: Meal, item: string, qty: real,
                             foods: FoodCatalog, rates: RateCatalog)
    requires item in foods && qty in Servings
    ensures Step(Step(s, AddMeal(meal, item, qty), foods, rates), UndoFood, foods, rates) == s
  {
    Ledger.UndoAfterAppend(s.food, MakeFoodEntry(foods, meal, item, qty));
  }

  /** Undo right after "Add Activity" restores the session exactly. */
  lemma UndoExerciseAfterAddActivity(s: Session, activity: string, blocks: real,
                                     foods: FoodCatalog, rates: RateCatalog)
    requires activity in rates && blocks in Servings
    ensures Step(Step(s, AddActivity(activity, blocks), foods, rates), UndoExercise, foods, rates) == s
  {
    Ledger.UndoAfterAppend(s.exercise, MakeExerciseEntry(rates, activity, blocks));
  }

  /** "Add Meal" raises the intake total by exactly the new row's kcal and
      leaves the burn total alone. */
  lemma AddMealRaisesIntake(s: Session, meal: Meal, item: string, qty: real,
                            foods: FoodCatalog, rates: RateCatalog)
    requires item in foods && qty in Servings
    ensures Balance.TotalIntake(Step(s, AddMeal(meal, item, qty), foods, rates).food)
         == Balance.TotalIntake(s.food) + foods[item].cals * qty
    ensures Balance.TotalBurned(Step(s, AddMeal(meal, item, qty), foods, rates).exercise)
         == Balance.TotalBurned(s.exercise)
  {
    var e := MakeFoodEntry(foods, meal, item, qty);
    Ledger.SumAppend(s.food, e, Balance.Calories);
  }

  /** "Add Activity" raises the burn total by rate * blocks and leaves the
      intake total alone. */
  lemma AddActivityRaisesBurn(s: Session, activity: string, blocks: real,
                              foods: FoodCatalog, rates: RateCatalog)
    requires activity in rates && blocks in Servings
    ensures Balance.TotalBurned(Step(s, AddActivity(activity, blocks), foods, rates).exercise)
         == Balance.TotalBurned(s.exercise) + rates[activity] * blocks
    ensures Balance.TotalIntake(Step(s, AddActivity(activity, blocks), foods, rates).food)
         == Balance.TotalIntake(s.food)
  {
    var e := MakeExerciseEntry(rates, activity, blocks);
    Ledger.SumAppend(s.exercise, e, Balance.Burned);
  }

  /** "Clear All Food" brings the intake total back to 0. */
  lemma ClearFoodZeroesIntake(s: Session, foods: FoodCatalog, rates: RateCatalog)
    requires |s.food| > 0
    ensures Balance.TotalIntake(Step(s, ClearFood, foods, rates).food) == 0.0
  {
  }

  /** With catalog values that are not negative, the intake total of a
      well-formed session is not negative. */
  lemma IntakeNonNegative(s: Session, foods: FoodCatalog, rates: RateCatalog)
    requires WellFormed(s, foods, rates)
    requires forall k :: k in foods ==> foods[k].cals >= 0.0
    ensures Balance.TotalIntake(s.food) >= 0.0
  {
    forall i | 0 <= i < |s.food|
      ensures Balance.Calories(s.food[i]) >= 0.0
    {
      var e := s.food[i];
      assert e.qty > 0.0;
      assert foods[e.food].cals >= 0.0;
      assert e.calories == foods[e.food].cals * e.qty;
    }
    Ledger.SumNonNegative(s.food, Balance.Calories);
  }
}
