/** Worked examples on concrete inputs: the adjusted-weight case for a
    160 cm, 90 kg body and a day with one meal and one activity. */
module Scenarios {
  import opened Entries
  import opened BodyMetrics
  import Tracker
  import Balance
  import Ledger

  /** 160 cm and 90 kg: BMI 90 / 2.56 is Obese, the ideal weight is
      56.32 kg, the adjusted weight 64.74 kg, the sedentary target
      1618.5 kcal and the active target 1942.2 kcal. */
  lemma ObeseExample()
    ensures Classify(Bmi(160.0, 90.0)) == Obese
    ensures IdealWeight(160.0) == 56.32
    ensures CalcWeight(160.0, 90.0) == 64.74
    ensures DailyNeeds(160.0, 90.0, Sedentary) == 1618.5
    ensures DailyNeeds(160.0, 90.0, Active) == 1942.2
  {
    assert HeightSquared(160.0) == 2.56;
    assert Bmi(160.0, 90.0) * 2.56 == 90.0;
  }

  /** 160 cm and 64 kg sit exactly on the Obese edge: BMI 64 / 2.56 is
      25, so the weight is adjusted to 56.32 + (64 - 56.32) / 4 = 58.24 kg
      and the sedentary target is 1456 kcal. */
  lemma ObeseEdgeExample()
    ensures Bmi(160.0, 64.0) == 25.0
    ensures Classify(Bmi(160.0, 64.0)) == Obese
    ensures CalcWeight(160.0, 64.0) == 58.24
    ensures DailyNeeds(160.0, 64.0, Sedentary) == 1456.0
  {
    assert HeightSquared(160.0) == 2.56;
    assert Bmi(160.0, 64.0) * 2.56 == 64.0;
  }

  const Rice: string := "Rice (1/2 cup)"
  const Jogging: string := "Jogging"

  /** Two catalog rows, as the full tracker lists them. */
  const Foods: FoodCatalog := map[Rice := Macros(75.0, 2.0, 15.0, 0.0)]
  const Rates: RateCatalog := map[Jogging := 240.0]

  /** Two servings of rice and one 30-minute jog against a 1618.5 kcal
      target: 150 kcal in, 240 out, net -90, 1708.5 left, an empty
      progress bar and no warning. */
  lemma RiceAndJoggingDay()
    ensures
      var s1 := Tracker.Step(Tracker.Fresh, Tracker.AddMeal(Lunch, Rice, 2.0), Foods, Rates);
      var s2 := Tracker.Step(s1, Tracker.AddActivity(Jogging, 1.0), Foods, Rates);
      var r := Balance.Compute(s2.food, s2.exercise, 1618.5);
      && r.intake == 150.0
      && r.burned == 240.0
      && r.net == -90.0
      && r.remaining == 1708.5
      && r.progress == 0.0
      && r.status == Balance.Left(1708.5)
  {
    var s1 := Tracker.Step(Tracker.Fresh, Tracker.AddMeal(Lunch, Rice, 2.0), Foods, Rates);
    var s2 := Tracker.Step(s1, Tracker.AddActivity(Jogging, 1.0), Foods, Rates);
    Tracker.AddMealRaisesIntake(Tracker.Fresh, Lunch, Rice, 2.0, Foods, Rates);
    Tracker.AddActivityRaisesBurn(s1, Jogging, 1.0, Foods, Rates);
  }
}
