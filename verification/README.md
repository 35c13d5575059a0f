# May Bloom calorie tracker — verified model of the energy-balance core

The repository holds three near-duplicate Streamlit pages: an exchange
calculator (`app.py`), a two-column tracker (`advanced_app.py`) and the full
tracker with login and spreadsheet history (`advancedplus.app.py`). Under
their UI sits a small block of pure logic, modelled here in Dafny with exact
`real` arithmetic:

- **Body-metrics calculator** (`body_metrics.dfy`, module `BodyMetrics`):
  BMI = weight / height(m)², the four half-open Asian-Pacific bands
  (< 18.5, [18.5, 23), [23, 25), ≥ 25) and the two-way split of the simpler
  page, the weight used for energy needs (actual below BMI 25, otherwise
  ideal + 0.25 · (actual − ideal) with ideal = 22 · height(m)²), and the
  daily target calc_weight × 25 (Sedentary) or × 30 (Active).
- **Catalogs and log entries** (`entries.dfy`, module `Entries`): catalogs
  are `map` parameters; a food row is the catalog's per-serving values
  times the quantity, an exercise row is rate × blocks kcal over
  blocks × 30 minutes.
- **Log ledger** (`ledger.dfy`, module `Ledger`): append at the end, undo
  last (`list.pop()`), clear, and the column sum with its loop form.
- **Full tracker session** (`tracker.dfy`, module `Tracker`): the six log
  buttons as steps between immutable `Session` values.
- **Balance aggregator** (`balance.dfy`, module `Balance`): totals, net,
  remaining, the clamped progress fraction and the over-budget status.
- **Two-column tracker** (`advanced.dfy`, module `Advanced`): its own
  entry shape, totals and buttons, related back to the full tracker (same
  kcal per row, same amount left).
- **Exchange calculator** (`exchange.dfy`, module `Exchange`): its own
  rows, grand total and buttons.
- **Summary serialiser** (`summary.dfy`, module `Summary`):
  `format_log_to_string` and the row handed to the spreadsheet.
- **Worked examples** (`scenarios.dfy`, module `Scenarios`): 160 cm / 90 kg
  gives calc_weight 64.74 kg, 1618.5 kcal sedentary and 1942.2 kcal active; two servings of rice
  and one jog give 150 in, 240 out, 1708.5 left.

Every operation is a pure function of its inputs, so recomputing a total or
re-reading a log without an intervening button press gives the same value.

Three behaviours follow from how the pages are built:

- Unknown food names and non-positive quantities are not rejected. The
  code indexes the catalog with a key taken from a select box of its keys
  and reads the quantity from a select box or a bounded widget, so catalog
  membership is a precondition and the quantity comes from the offered
  choices.
- Undo and clear are never pressed on an empty log: the code draws those
  buttons only while the log is non-empty (`Tracker.Enabled`, the
  `requires` of `Ledger.UndoLast`).
- Only the kcal columns are summed. Protein, carbs and fat are stored in
  each full-tracker row but never totalled.

## Model

| member | source | states |
|---|---|---|
| `Ledger.Append` | advancedplus.app.py:320-326 | the new log is one entry longer, keeps every earlier entry in place and ends with the new one |
| `Ledger.UndoLast` | advancedplus.app.py:336 | on a non-empty log, the result followed by the removed last entry is the original log |
| `Ledger.Clear` | advancedplus.app.py:340 | the log is empty afterwards, whatever it held |
| `Ledger.UndoAfterAppend` | advancedplus.app.py:319-337 | undo right after an add gives back exactly the earlier log |
| `Ledger.AppendAfterUndo` | advancedplus.app.py:335-337 | re-adding the popped entry restores the log |
| `Ledger.Sum` | advancedplus.app.py:271-277 | the reference column sum that every `.sum()` of a kcal column stands for, 0 for no rows; `SumAppend`, `SumOfMap` and `ColumnSum` are stated against it |
| `Ledger.SumAppend` | advancedplus.app.py:270-274 | a column sum grows by exactly the new entry's value when an entry is appended |
| `Ledger.SumNonNegative` | app.py:92 | a column without negative values has a non-negative sum |
| `Ledger.SumOfMap` | advanced_app.py:79-84 | summing a column after projecting each row equals summing the composed column of the original rows |
| `Ledger.ColumnSum` | advancedplus.app.py:271-272 | the left-to-right accumulation over the rows equals the column sum |
| `BodyMetrics.HeightSquaredPositive` | advancedplus.app.py:238-239 | height(m)² is positive for any non-zero height, so the BMI division is defined |
| `BodyMetrics.Bmi` | advancedplus.app.py:238-239 | BMI times height(m)² gives back the weight |
| `BodyMetrics.Classify` | advancedplus.app.py:241-251 | the chosen band is the one and only band whose half-open range [lower, upper) holds the BMI, so the four bands are exhaustive and disjoint |
| `BodyMetrics.ClassifyEdges` | advancedplus.app.py:244-250 | BMI 18.5 is Normal, 23 is Overweight and 25 is Obese (in exact arithmetic; see "Left out" on floating point) |
| `BodyMetrics.UsesAdjustedWeight` | advanced_app.py:50 | the two-way split adjusts exactly when the four-way chain says Obese |
| `BodyMetrics.IdealWeight` | advancedplus.app.py:252 | for any non-zero height the ideal weight is the weight whose BMI is exactly 22 |
| `BodyMetrics.AdjustedWeight` | advancedplus.app.py:252-253 | when the weight is at least the ideal weight, the adjusted weight lies between them, strictly below the weight when the weight is above ideal |
| `BodyMetrics.ObeseMeansAboveIdeal` | advancedplus.app.py:250-252 | an obese BMI implies a weight strictly above 22 · height(m)² |
| `BodyMetrics.CalcWeight` | advancedplus.app.py:241-254 | calc_weight is the actual weight below BMI 25, otherwise in [ideal, actual), so it never exceeds the actual weight |
| `BodyMetrics.CalcWeightTwoWay` | advanced_app.py:49-55 | the two-way page computes the same calc_weight as the four-band page for every input |
| `BodyMetrics.Multiplier` | advancedplus.app.py:257 | the kcal-per-kg factor is positive |
| `BodyMetrics.DailyNeeds` | advancedplus.app.py:257 | a positive weight gives a positive target; the target never exceeds weight × factor and equals it below BMI 25 |
| `BodyMetrics.DailyNeedsWithinInputBounds` | advancedplus.app.py:233-257 | within the widgets' bounds (height 100–200 cm, weight 30–200 kg) the target lies in [550, 6000] kcal, so the progress division is defined |
| `BodyMetrics.Evaluate` | advancedplus.app.py:238-257 | the sidebar's band holds the BMI, the weight is adjusted exactly when the band is Obese, and the target is positive for a positive weight |
| `Entries.MakeFoodEntry` | advancedplus.app.py:320-326 | the row keeps meal, food and servings and each of kcal, protein, carbs and fat is the catalog value times the servings |
| `Entries.MakeExerciseEntry` | advancedplus.app.py:351-355 | the row lasts blocks × 30 minutes and its kcal per 30 minutes equal the activity's rate |
| `Entries.MakeMealEntry` | advanced_app.py:74-77 | the two-column row is the full tracker's row with the protein, carbs and fat columns dropped |
| `Entries.MakePlainEntry` | app.py:71-79 | the row keeps food and quantity and its kcal are the per-unit value times the quantity; with a non-negative value and a quantity of at least 0.5 the kcal are at least half the per-unit value |
| `Balance.TotalIntake` | advancedplus.app.py:270-274 | the empty-log guard changes nothing: intake is the Calories column sum, 0 for no rows |
| `Balance.TotalBurned` | advancedplus.app.py:276-280 | burn is the "Calories Burned" column sum, 0 for no rows |
| `Balance.Clamp` | advancedplus.app.py:291 | the clamped value lies in [lo, hi], equals the input inside it and the nearer bound outside it |
| `Balance.Compute` | advancedplus.app.py:270-297 | net = intake − burned, remaining = target − net, progress in [0, 1], over budget iff remaining < 0 with the exact excess; for a positive target the bar is full when over budget, empty iff net ≤ 0, and net / target in between |
| `Balance.RatioOrder` | advancedplus.app.py:291 | dividing by a positive target keeps the order of net against 0 and against the target |
| `Summary.JoinAppend` | advancedplus.app.py:42 | joining one more part appends the separator and that part |
| `Summary.FormatFragments` | advancedplus.app.py:34-42 | no fragments give "None"; otherwise the text starts with the first fragment |
| `Summary.Join` | advancedplus.app.py:42 | the reference `", ".join`: no parts give "", one part is itself, more parts are the first, the separator and the join of the rest |
| `Summary.FormatFragmentsAppend` | advancedplus.app.py:35-42 | one more fragment replaces "None" when it is the first, and otherwise follows ", " |
| `Summary.FormatFragmentsIsNoneIffEmpty` | advancedplus.app.py:35-42 | when every fragment is longer than "None", the text is "None" iff there are no fragments |
| `Summary.FoodFragment` | advancedplus.app.py:39 | a food fragment is always longer than "None" |
| `Summary.ExerciseFragment` | advancedplus.app.py:41 | an exercise fragment is always longer than "None" |
| `Summary.FoodFragments` | advancedplus.app.py:36-39 | one fragment per food row, in log order |
| `Summary.ExerciseFragments` | advancedplus.app.py:36-41 | one fragment per exercise row, in log order |
| `Summary.FoodLogText` | advancedplus.app.py:48 | the food text is "None" iff the food log is empty |
| `Summary.ExerciseLogText` | advancedplus.app.py:49 | the exercise text is "None" iff the exercise log is empty |
| `Summary.FoodLogTextAfterAdd` | advancedplus.app.py:34-42 | adding a meal turns "None" into its fragment, or appends ", " and its fragment |
| `Summary.ExerciseLogTextAfterAdd` | advancedplus.app.py:34-42 | adding an activity turns "None" into its fragment, or appends ", " and its fragment |
| `Summary.DailySummaryRow` | advancedplus.app.py:44-51 | the saved row carries the date and user, the two logs' `format_log_to_string` texts ("None" exactly for an empty log), and net = intake − burned of the same logs |
| `Tracker.Step` | advancedplus.app.py:319-369 | a food button leaves the exercise log alone and vice versa; add appends the catalog-derived row, undo drops the last row, clear empties the log |
| `Tracker.Enabled` | advancedplus.app.py:313-370 | the add buttons are always available, with a catalog key and an offered serving from the select boxes; undo and clear only while their log is non-empty, as they are drawn only then |
| `Tracker.StepKeepsWellFormed` | advancedplus.app.py:315-369 | every button keeps every row of both logs derived from the catalogs and every food quantity one of the offered servings |
| `Tracker.UndoFoodAfterAddMeal` | advancedplus.app.py:319-337 | undo right after "Add Meal" restores the whole session |
| `Tracker.UndoExerciseAfterAddActivity` | advancedplus.app.py:350-366 | undo right after "Add Activity" restores the whole session |
| `Tracker.AddMealRaisesIntake` | advancedplus.app.py:270-326 | "Add Meal" raises intake by exactly catalog kcal × servings and leaves the burn total alone |
| `Tracker.AddActivityRaisesBurn` | advancedplus.app.py:270-355 | "Add Activity" raises burn by exactly rate × blocks and leaves the intake total alone |
| `Tracker.ClearFoodZeroesIntake` | advancedplus.app.py:270-341 | after "Clear All Food" the intake total is 0 |
| `Tracker.IntakeNonNegative` | advancedplus.app.py:317-326 | in a well-formed session (offered servings only) with non-negative catalog kcal, intake is never negative |
| `Advanced.TotalIn` | advanced_app.py:79-84 | total_in is the Calories column sum, 0 for no rows |
| `Advanced.AddFood` | advanced_app.py:73-77 | one row at the end with the chosen meal, food and quantity, earlier rows kept, total_in up by catalog kcal × quantity |
| `Advanced.AddExercise` | advanced_app.py:95-100 | one row at the end lasting blocks × 30 minutes, earlier rows kept, total_out up by rate × blocks |
| `Advanced.Remaining` | advanced_app.py:117 | remaining + total_in = daily_needs + total_out |
| `Advanced.RemainingAgreesWithFullTracker` | advanced_app.py:73-117 | on the same meals and activities the two-column page reports the same remaining kcal as the full tracker |
| `Exchange.AddToList` | app.py:69-79 | one row at the end with the chosen food and quantity, earlier rows kept, the kcal sum up by per-unit kcal × quantity |
| `Exchange.GrandTotal` | app.py:86-100 | a total is shown iff the log has rows, and it is the sum of their kcal |
| `Exchange.ClearList` | app.py:96-97 | after clearing, the section shows the empty-log hint again |
| `Exchange.AddToListKeepsLogged` | app.py:67-79 | adding with quantity ≥ 0.5 keeps every row catalog-derived with quantity ≥ 0.5 |
| `Exchange.GrandTotalNonNegative` | app.py:67-92 | with non-negative catalog values every logged row and the grand total are non-negative |
| `Scenarios.ObeseExample` | advancedplus.app.py:238-257 | 160 cm, 90 kg is Obese, ideal 56.32 kg, calc_weight 64.74 kg, sedentary target 1618.5 kcal and active target 1942.2 kcal |
| `Scenarios.ObeseEdgeExample` | advancedplus.app.py:238-257 | 160 cm, 64 kg has BMI exactly 25, so Obese, calc_weight 58.24 kg and a sedentary target of 1456 kcal |
| `Scenarios.RiceAndJoggingDay` | advancedplus.app.py:270-355 | rice × 2 and one jog against 1618.5 kcal: 150 in, 240 out, net −90, 1708.5 left, empty bar, no warning |

## Left out

- Streamlit UI and session mechanics (widgets, columns, tabs, CSS, `rerun`): presentation, not logic. The session is an explicit `Tracker.Session` value.
- Google Sheets access (`get_sheet_connection`, `append_row`, history, admin and feedback reads): network I/O through libraries that are not part of this model. Only the row's field values are modelled (`Summary.DailySummaryRow`).
- `check_password`: a comparison against external configuration secrets.
- pandas DataFrames: a column `.sum()` is `Ledger.Sum` / `Ledger.ColumnSum` over a `seq`.
- Display formatting: `int(...)` truncation, `:.1f` rounding and the number-to-text step inside f-strings. The last is the `render` parameter of the summary functions.
- Catalog contents: the tables differ between the pages, so catalogs are parameters. `Scenarios` holds two concrete rows.
- Floating point: all quantities are exact `real`s, so IEEE rounding of Python floats is not modelled. Its visible effect is at the band edges. In Python `1.6 ** 2` is `2.5600000000000005`, so 160 cm / 64 kg gives a BMI just below 25: the page shows Overweight, calc_weight 64 kg and 1600 kcal sedentary. In exact arithmetic the BMI is 25, and the model gives Obese, 58.24 kg and 1456 kcal (`BodyMetrics.ClassifyEdges`, `Scenarios.ObeseEdgeExample`).
- The activity select box's text test (`"Sedentary" in activity`) is the `Activity` enumeration.
- Input-widget bounds are not preconditions. `Bmi` needs only a non-zero height, and the bounds appear as the hypotheses of `BodyMetrics.DailyNeedsWithinInputBounds`.
- `format_log_to_string`'s `type` argument: any value other than "food" formats the exercise shape. The model has one function per log kind instead.
- Balance.Compute: the over-budget amount is the exact excess `-remaining`. The page prints `abs(int(remaining))`, truncated toward zero.
