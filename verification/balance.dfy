/** The dashboard's energy balance: intake and burn totals over the two
    logs, the net intake, what is left of the daily target, the progress
    bar's fraction and the over-budget warning. */
module Balance {
  import opened Entries
  import Ledger

  function Calories(e: FoodEntry): real
  {
    e.calories
  }

  function Burned(e: ExerciseEntry): real
  {
    e.burned
  }

  /** total_intake: the Calories column's sum when the log has rows, and
      0 otherwise. The guard changes nothing: it is the plain sum. */
  function TotalIntake(log: seq<FoodEntry>): (kcal: real)
    ensures kcal == Ledger.Sum(log, Calories)
  {
    if |log| > 0 then Ledger.Sum(log, Calories) else 0.0
  }

  /** total_burned: the "Calories Burned" column's sum, 0 for no rows. */
  function TotalBurned(log: seq<ExerciseEntry>): (kcal: real)
    ensures kcal == Ledger.Sum(log, Burned)
  {
    if |log| > 0 then Ledger.Sum(log, Burned) else 0.0
  }

  /** Python's `min(max(x, lo), hi)`. */
  function Clamp(x: real, lo: real, hi: real): (r: real)
    requires lo <= hi
    ensures lo <= r <= hi
    ensures lo <= x <= hi ==> r == x
    ensures x < lo ==> r == lo
    ensures x > hi ==> r == hi
  {
    var atLeast := if x > lo then x else lo;
    if atLeast < hi then atLeast else hi
  }

  /** The message under the progress bar. */
  datatype Status = OverBudget(excess: real) | Left(kcal: real)

  datatype Report = Report(intake: real, burned: real, net: real, remaining: real,
                           progress: real, status: Status)

  /** The totals block. The progress division needs a non-zero target; the
      bar is full whenever the budget is exceeded and empty exactly when the
      net intake is not positive, and in between it is net / target. */
  function Compute(food: seq<FoodEntry>, exercise: seq<ExerciseEntry>, dailyNeeds: real): (r: Report)
    requires dailyNeeds != 0.0
    ensures r.intake == Ledger.Sum(food, Calories)
    ensures r.burned == Ledger.Sum(exercise, Burned)
    ensures r.net + r.burned == r.intake
    ensures r.remaining + r.net == dailyNeeds
    ensures 0.0 <= r.progress <= 1.0
    ensures r.status.OverBudget? <==> r.remaining < 0.0
    ensures r.status.OverBudget? ==> r.status.excess > 0.0 && r.status.excess + r.remaining == 0.0
    ensures r.status.Left? ==> r.status.kcal == r.remaining >= 0.0
    ensures dailyNeeds > 0.0 && r.status.OverBudget? ==> r.progress == 1.0
    ensures dailyNeeds > 0.0 ==> (r.progress == 0.0 <==> r.net <= 0.0)
    ensures dailyNeeds > 0.0 && 0.0 <= r.net <= dailyNeeds ==> r.progress * dailyNeeds == r.net
  {
    var intake := TotalIntake(food);
    var burned := TotalBurned(exercise);
    var net := intake - burned;
    var remaining := dailyNeeds - net;
    var ratio := net / dailyNeeds;
    assert ratio * dailyNeeds == net;
    assert dailyNeeds > 0.0 ==> (ratio > 1.0 <==> net > dailyNeeds) && (ratio <= 0.0 <==> net <= 0.0) by {
      if dailyNeeds > 0.0 {
        RatioOrder(net, dailyNeeds);
      }
    }
    var progress := Clamp(ratio, 0.0, 1.0);
    var status := if remaining < 0.0 then OverBudget(-remaining) else Left(remaining);
    Report(intake, burned, net, remaining, progress, status)
  }

  /** Dividing by a positive target keeps the order against 0 and 1. */
  lemma RatioOrder(net: real, target: real)
    requires target > 0.0
    ensures net / target > 1.0 <==> net > target
    ensures net / target <= 0.0 <==> net <= 0.0
  {
    var ratio := net / target;
    assert ratio * target == net;
    if ratio > 1.0 {
      assert (ratio - 1.0) * target > 0.0;
    } else {
      assert (1.0 - ratio) * target >= 0.0;
    }
    if ratio <= 0.0 {
      assert (0.0 - ratio) * target >= 0.0;
    } else {
      assert ratio * target > 0.0;
    }
  }
}
