/** The sidebar calculator: BMI from height and weight, its Asian-Pacific
    band, the weight used for energy needs (actual, or adjusted towards the
    ideal weight for obese BMIs) and the daily energy target. */
module BodyMetrics {

  datatype Activity = Sedentary | Active

  datatype BmiClass = Underweight | Normal | Overweight | Obese

  /** The band edges: [NormalFrom, OverweightFrom) is Normal and so on. */
  const NormalFrom: real := 18.5
  const OverweightFrom: real := 23.0
  const ObeseFrom: real := 25.0

  /** The BMI that defines the ideal weight, and the share of the excess
      over ideal weight that the adjusted weight keeps. */
  const IdealBmi: real := 22.0
  const ExcessShare: real := 0.25

  function HeightM(heightCm: real): real
  {
    heightCm / 100.0
  }

  /** height(m)^2, the `height_m ** 2` of both BMI and ideal weight,
      written as height(m) times height(cm) / 100. */
  function HeightSquared(heightCm: real): real
  {
    HeightM(heightCm) * (heightCm / 100.0)
  }

  lemma HeightSquaredPositive(heightCm: real)
    requires heightCm != 0.0
    ensures HeightSquared(heightCm) > 0.0
  {
  }

  /** weight / height(m)^2; the only demand is a non-zero height. */
  function Bmi(heightCm: real, weightKg: real): (bmi: real)
    requires heightCm != 0.0
    ensures bmi * HeightSquared(heightCm) == weightKg
  {
    HeightSquaredPositive(heightCm);
    weightKg / HeightSquared(heightCm)
  }

  /** Lower edge of each band (Underweight has none). */
  predicate AtOrAboveLower(c: BmiClass, bmi: real)
  {
    match c
    case Underweight => true
    case Normal => bmi >= NormalFrom
    case Overweight => bmi >= OverweightFrom
    case Obese => bmi >= ObeseFrom
  }

  /** Upper edge of each band, exclusive (Obese has none). */
  predicate BelowUpper(c: BmiClass, bmi: real)
  {
    match c
    case Underweight => bmi < NormalFrom
    case Normal => bmi < OverweightFrom
    case Overweight => bmi < ObeseFrom
    case Obese => true
  }

  /** The half-open band [lower, upper) of class `c` contains `bmi`. */
  predicate InBand(c: BmiClass, bmi: real)
  {
    AtOrAboveLower(c, bmi) && BelowUpper(c, bmi)
  }

  /** The four-way if/elif chain. The bands are exhaustive and mutually
      exclusive: the result is the one and only band holding `bmi`. */
  function Classify(bmi: real): (c: BmiClass)
    ensures forall k :: InBand(k, bmi) <==> k == c
  {
    if bmi < 18.5 then Underweight
    else if 18.5 <= bmi < 23.0 then Normal
    else if 23.0 <= bmi < 25.0 then Overweight
    else Obese
  }

  /** The edges belong to the upper band. */
  lemma ClassifyEdges()
    ensures Classify(18.5) == Normal
    ensures Classify(23.0) == Overweight
    ensures Classify(25.0) == Obese
  {
  }

  /** The two-way split of the simpler variant: adjust iff BMI >= 25. It
      agrees with the four-way chain on when the BMI counts as obese. */
  function UsesAdjustedWeight(bmi: real): (adjust: bool)
    ensures adjust <==> Classify(bmi) == Obese
  {
    bmi >= 25.0
  }

  /** 22 * height(m)^2: the weight whose BMI is exactly the ideal 22. */
  function IdealWeight(heightCm: real): (w: real)
    ensures heightCm != 0.0 ==> Bmi(heightCm, w) == IdealBmi
  {
    var w := IdealBmi * HeightSquared(heightCm);
    if heightCm == 0.0 then w
    else
      HeightSquaredPositive(heightCm);
      assert (Bmi(heightCm, w) - IdealBmi) * HeightSquared(heightCm) == 0.0;
      w
  }

  /** ideal + 0.25 * (actual - ideal): a quarter of the excess is kept. */
  function AdjustedWeight(heightCm: real, weightKg: real): (w: real)
    ensures IdealWeight(heightCm) <= weightKg ==> IdealWeight(heightCm) <= w <= weightKg
    ensures IdealWeight(heightCm) < weightKg ==> w < weightKg
  {
    IdealWeight(heightCm) + ExcessShare * (weightKg - IdealWeight(heightCm))
  }

  /** An obese BMI means the weight is strictly above the ideal weight. */
  lemma ObeseMeansAboveIdeal(heightCm: real, weightKg: real)
    requires heightCm != 0.0
    requires Bmi(heightCm, weightKg) >= ObeseFrom
    ensures weightKg > IdealWeight(heightCm)
  {
    HeightSquaredPositive(heightCm);
  }

  /** calc_weight of the four-band variant: the actual weight below BMI 25,
      otherwise the adjusted weight, which lies in [ideal, actual). */
  function CalcWeight(heightCm: real, weightKg: real): (w: real)
    requires heightCm != 0.0
    ensures Bmi(heightCm, weightKg) < ObeseFrom ==> w == weightKg
    ensures Bmi(heightCm, weightKg) >= ObeseFrom ==> IdealWeight(heightCm) <= w < weightKg
    ensures w <= weightKg
  {
    match Classify(Bmi(heightCm, weightKg))
    case Underweight => weightKg
    case Normal => weightKg
    case Overweight => weightKg
    case Obese =>
      ObeseMeansAboveIdeal(heightCm, weightKg);
      AdjustedWeight(heightCm, weightKg)
  }

  /** calc_weight of the two-way variant, which computes the same weight as
      the four-band variant for every input. */
  function CalcWeightTwoWay(heightCm: real, weightKg: real): (w: real)
    requires heightCm != 0.0
    ensures w == CalcWeight(heightCm, weightKg)
  {
    var h2 := HeightSquared(heightCm);
    HeightSquaredPositive(heightCm);
    if weightKg / h2 >= 25.0 then
      22.0 * h2 + 0.25 * (weightKg - 22.0 * h2)
    else
      weightKg
  }

  /** kcal per kg of calc_weight: 25 when sedentary, 30 when active. */
  function Multiplier(a: Activity): (m: real)
    ensures m > 0.0
  {
    if a.Sedentary? then 25.0 else 30.0
  }

  /** daily_needs = calc_weight * multiplier. A positive weight gives a
      positive target, and the target never exceeds the one computed from
      the unadjusted weight. */
  function DailyNeeds(heightCm: real, weightKg: real, a: Activity): (kcal: real)
    requires heightCm != 0.0
    ensures weightKg > 0.0 ==> kcal > 0.0
    ensures kcal <= weightKg * Multiplier(a)
    ensures Bmi(heightCm, weightKg) < ObeseFrom ==> kcal == weightKg * Multiplier(a)
  {
    var w := CalcWeight(heightCm, weightKg);
    assert w * Multiplier(a) <= weightKg * Multiplier(a);
    w * Multiplier(a)
  }

  /** Within the input widgets' bounds (height 100-200 cm, weight
      30-200 kg) the target lies between 550 and 6000 kcal, so the
      progress division by it is always defined. */
  lemma DailyNeedsWithinInputBounds(heightCm: real, weightKg: real, a: Activity)
    requires 100.0 <= heightCm <= 200.0
    requires 30.0 <= weightKg <= 200.0
    ensures 550.0 <= DailyNeeds(heightCm, weightKg, a) <= 6000.0
  {
    var m := heightCm / 100.0;
    assert HeightM(heightCm) >= 1.0;
    assert HeightM(heightCm) * m >= 1.0 * m;
    var w := CalcWeight(heightCm, weightKg);
    assert w >= 22.0;
  }

  /** Everything the sidebar shows about the body. */
  datatype Metrics = Metrics(bmi: real, band: BmiClass, calcWeight: real, dailyNeeds: real)

  /** The sidebar block, evaluated from the current inputs: the band holds
      the BMI, and the weight is adjusted exactly when the band is Obese. */
  function Evaluate(heightCm: real, weightKg: real, a: Activity): (m: Metrics)
    requires heightCm != 0.0
    ensures m.bmi * HeightSquared(heightCm) == weightKg
    ensures InBand(m.band, m.bmi)
    ensures weightKg > 0.0 ==> (m.calcWeight == weightKg <==> m.band != Obese)
    ensures weightKg > 0.0 ==> m.dailyNeeds > 0.0
  {
    var bmi := Bmi(heightCm, weightKg);
    Metrics(bmi, Classify(bmi), CalcWeight(heightCm, weightKg), DailyNeeds(heightCm, weightKg, a))
  }
}
