/** The text form of the two logs that the daily summary row carries:
    "None" for an empty log, otherwise one fragment per entry, in log order,
    joined by ", ". How a number is printed inside a fragment is the
    `render` parameter. */
module Summary {
  import opened Entries
  import Ledger
  import Balance

  const EmptyText: string := "None"
  const Separator: string := ", "

  /** Python's `sep.join(parts)`. */
  function Join(parts: seq<string>, sep: string): string
  {
    if |parts| == 0 then ""
    else if |parts| == 1 then parts[0]
    else parts[0] + sep + Join(parts[1..], sep)
  }

  /** Joining one more part appends the separator and that part. */
  lemma {:induction false} JoinAppend(parts: seq<string>, x: string, sep: string)
    requires |parts| > 0
    ensures Join(parts + [x], sep) == Join(parts, sep) + sep + x
  {
    if |parts| == 1 {
      assert parts + [x] == [parts[0], x];
      assert [parts[0], x][1..] == [x];
    } else {
      assert (parts + [x])[1..] == parts[1..] + [x];
      JoinAppend(parts[1..], x, sep);
    }
  }

  /** `format_log_to_string` once the fragments are built: "None" for no
      fragments, otherwise the joined text, which starts with the first
      fragment. */
  function FormatFragments(fragments: seq<string>): (text: string)
    ensures |fragments| == 0 ==> text == EmptyText
    ensures |fragments| > 0 ==> fragments[0] <= text
  {
    if |fragments| == 0 then EmptyText else Join(fragments, Separator)
  }

  /** The text grows by exactly one fragment per added entry: the first
      one replaces "None", later ones follow a ", ". */
  lemma FormatFragmentsAppend(fragments: seq<string>, x: string)
    ensures FormatFragments(fragments + [x])
         == if |fragments| == 0 then x else FormatFragments(fragments) + Separator + x
  {
    if |fragments| == 0 {
      assert fragments + [x] == [x];
    } else {
      JoinAppend(fragments, x, Separator);
    }
  }

  /** "None" cannot be mistaken for a one-entry log when every fragment
      is longer than "None". */
  lemma FormatFragmentsIsNoneIffEmpty(fragments: seq<string>)
    requires forall i :: 0 <= i < |fragments| ==> |fragments[i]| > |EmptyText|
    ensures FormatFragments(fragments) == EmptyText <==> |fragments| == 0
  {
  }

  /** "{Meal}: {Food} (x{Qty})". */
  function FoodFragment(e: FoodEntry, render: real -> string): (s: string)
    ensures |s| > |EmptyText|
  {
    MealName(e.meal) + ": " + e.food + " (x" + render(e.qty) + ")"
  }

  /** "{Activity} ({Duration} mins)". */
  function ExerciseFragment(e: ExerciseEntry, render: real -> string): (s: string)
    ensures |s| > |EmptyText|
  {
    e.activity + " (" + render(e.minutes) + " mins)"
  }

  /** The loop over the food log: one fragment per entry, in log order. */
  function FoodFragments(log: seq<FoodEntry>, render: real -> string): (r: seq<string>)
    ensures |r| == |log|
    ensures forall i :: 0 <= i < |log| ==> r[i] == FoodFragment(log[i], render)
  {
    if |log| == 0 then [] else [FoodFragment(log[0], render)] + FoodFragments(log[1..], render)
  }

  /** The loop over the exercise log: one fragment per entry, in order. */
  function ExerciseFragments(log: seq<ExerciseEntry>, render: real -> string): (r: seq<string>)
    ensures |r| == |log|
    ensures forall i :: 0 <= i < |log| ==> r[i] == ExerciseFragment(log[i], render)
  {
    if |log| == 0 then [] else [ExerciseFragment(log[0], render)] + ExerciseFragments(log[1..], render)
  }

  /** `format_log_to_string(food_log, type="food")`. */
  function FoodLogText(log: seq<FoodEntry>, render: real -> string): (text: string)
    ensures text == EmptyText <==> |log| == 0
  {
    FormatFragmentsIsNoneIffEmpty(FoodFragments(log, render));
    FormatFragments(FoodFragments(log, render))
  }

  /** `format_log_to_string(exercise_log, type="exercise")`. */
  function ExerciseLogText(log: seq<ExerciseEntry>, render: real -> string): (text: string)
    ensures text == EmptyText <==> |log| == 0
  {
    FormatFragmentsIsNoneIffEmpty(ExerciseFragments(log, render));
    FormatFragments(ExerciseFragments(log, render))
  }

  /** Adding a meal extends the food text by that meal's fragment. */
  lemma FoodLogTextAfterAdd(log: seq<FoodEntry>, e: FoodEntry, render: real -> string)
    ensures FoodLogText(Ledger.Append(log, e), render)
         == if |log| == 0 then FoodFragment(e, render)
            else FoodLogText(log, render) + Separator + FoodFragment(e, render)
  {
    assert FoodFragments(log + [e], render) == FoodFragments(log, render) + [FoodFragment(e, render)];
    FormatFragmentsAppend(FoodFragments(log, render), FoodFragment(e, render));
  }

  /** Adding an activity extends the exercise text by its fragment. */
  lemma ExerciseLogTextAfterAdd(log: seq<ExerciseEntry>, e: ExerciseEntry, render: real -> string)
    ensures ExerciseLogText(Ledger.Append(log, e), render)
         == if |log| == 0 then ExerciseFragment(e, render)
            else ExerciseLogText(log, render) + Separator + ExerciseFragment(e, render)
  {
    assert ExerciseFragments(log + [e], render) == ExerciseFragments(log, render) + [ExerciseFragment(e, render)];
    FormatFragmentsAppend(ExerciseFragments(log, render), ExerciseFragment(e, render));
  }

  /** The row handed to the spreadsheet: date, the two texts, the net
      calories and the user name. */
  datatype Row = Row(date: string, foodText: string, exerciseText: string,
                     netCalories: real, username: string)

  /** The row built when the day is saved, with the net intake the
      dashboard computed from the same logs. */
  function DailySummaryRow(date: string, food: seq<FoodEntry>, exercise: seq<ExerciseEntry>,
                           username: string, render: real -> string): (r: Row)
    ensures r.date == date && r.username == username
    ensures r.foodText == FoodLogText(food, render) && r.exerciseText == ExerciseLogText(exercise, render)
    ensures r.foodText == EmptyText <==> |food| == 0
    ensures r.exerciseText == EmptyText <==> |exercise| == 0
    ensures r.netCalories == Ledger.Sum(food, Balance.Calories) - Ledger.Sum(exercise, Balance.Burned)
  {
    var net := Balance.TotalIntake(food) - Balance.TotalBurned(exercise);
    Row(date, FoodLogText(food, render), ExerciseLogText(exercise, render), net, username)
  }
}
