/**
 * The calculation pipeline (backend/app/calc.py): input normalisation, BMI, BMR, TDEE,
 * the body-fat estimate and FFMI, the keto macros and the weight forecast, wired in a
 * fixed order. The unit conversion, BMR, TDEE, macro and forecast formulas live in
 * modules that are not part of this model: they are the parameters in `Helpers`, and
 * the only facts assumed about them are those their tests assert (`HelperTestFacts`).
 */
module Calc {
  import opened Outcomes
  import opened Models
  import Bmi
  import BodyFat
  import Ffmi

  const DefaultForecastWeeks := 24

  /** What input normalisation yields: metric height and weight, and the age to use. */
  datatype NormalizedInput = NormalizedInput(heightCm: real, weightKg: real, ageYears: int)

  /** The keto macro split: calories, protein, fat and net carbs, in that order. */
  datatype MacroSplit = MacroSplit(calories: real, proteinG: real, fatG: real, netCarbsG: real)

  /**
   * The helper functions calc.py imports but whose code is not part of this model:
   * normalise_inputs, the Mifflin-St Jeor BMR (sex, age, height, weight), the TDEE
   * (BMR, activity level), the keto macros (calories, weight, goal) and the forecast
   * (start weight, TDEE, calorie target, weeks), which yields (week, weight) pairs.
   * Each may raise.
   */
  datatype Helpers = Helpers(
    normalizeInputs: UserInput -> Result<NormalizedInput>,
    bmr: (Sex, int, real, real) -> Result<real>,
    tdee: (real, ActivityLevel) -> Result<real>,
    ketoMacros: (real, real, Goal) -> Result<MacroSplit>,
    forecastWeightKg: (real, real, real, int) -> Result<seq<(int, real)>>)

  /** The facts the helpers' own tests assert. */
  predicate HelperTestFacts(h: Helpers) {
    && h.bmr(Male, 25, 180.0, 80.0) == Ok(1805.0)
    && h.bmr(Female, 25, 180.0, 80.0) == Ok(1639.0)
    && IsValueError(h.bmr(Male, 17, 180.0, 80.0))
    && IsValueError(h.bmr(Male, 25, 0.0, 80.0))
    && IsValueError(h.bmr(Male, 25, 180.0, 0.0))
    && h.tdee(1805.0, Moderate) == Ok(2797.75)
    && IsValueError(h.tdee(0.0, Sedentary))
    && (var n := h.normalizeInputs(MetricUser(25, 180.0, 80.0));
        n.Ok? && n.value.heightCm == 180.0 && n.value.weightKg == 80.0)
    && (var n := h.normalizeInputs(ImperialUser(25, 70.8661, 176.3698));
        n.Ok? && -0.001 <= n.value.heightCm - 180.0 <= 0.001 && -0.001 <= n.value.weightKg - 80.0 <= 0.001)
    && IsValueError(h.normalizeInputs(NewUserInput(Male, 25, Moderate)))
  }

  /** An imperial male user with the given age, height in inches and weight in pounds, moderately active. */
  function ImperialUser(ageYears: int, heightIn: real, weightLb: real): (u: UserInput)
    ensures u.unitSystem == Imperial && u.sex == Male && u.ageYears == ageYears
    ensures u.heightIn == Some(heightIn) && u.weightLb == Some(weightLb) && u.heightCm.None? && u.weightKg.None?
  {
    NewUserInput(Male, ageYears, Moderate).(unitSystem := Imperial, heightIn := Some(heightIn), weightLb := Some(weightLb))
  }

  /** A metric male user with the given age, height and weight, moderately active, maintaining. */
  function MetricUser(ageYears: int, heightCm: real, weightKg: real): (u: UserInput)
    ensures u.unitSystem == Metric && u.sex == Male && u.ageYears == ageYears
    ensures u.heightCm == Some(heightCm) && u.weightKg == Some(weightKg)
    ensures u.activityLevel == Moderate && u.goal == Maintain
  {
    NewUserInput(Male, ageYears, Moderate).(heightCm := Some(heightCm), weightKg := Some(weightKg))
  }

  /** The forecast records: one point per (week, weight) pair, in the same order. */
  function ToForecastPoints(pairs: seq<(int, real)>): (r: seq<ForecastPoint>)
    ensures |r| == |pairs|
    ensures forall i :: 0 <= i < |pairs| ==> r[i].week == pairs[i].0 && r[i].weightKg == pairs[i].1
  {
    if pairs == [] then [] else [ForecastPoint(pairs[0].0, pairs[0].1)] + ToForecastPoints(pairs[1..])
  }

  /** The (week, weight) pairs of a forecast. */
  function FromForecastPoints(points: seq<ForecastPoint>): (r: seq<(int, real)>)
    ensures |r| == |points|
    ensures forall i :: 0 <= i < |points| ==> r[i] == (points[i].week, points[i].weightKg)
  {
    if points == [] then [] else [(points[0].week, points[0].weightKg)] + FromForecastPoints(points[1..])
  }

  /** The forecast records keep every pair: reading them back gives the pairs. */
  lemma ForecastPointsKeepPairs(pairs: seq<(int, real)>)
    ensures FromForecastPoints(ToForecastPoints(pairs)) == pairs
  {
    var back := FromForecastPoints(ToForecastPoints(pairs));
    assert forall i :: 0 <= i < |pairs| ==> back[i] == pairs[i];
  }

  /**
   * `calculate_all`. Each step may raise, ending the calculation with that exception. The
   * calorie target handed to the macro and forecast helpers is the TDEE, whatever the goal.
   */
  function CalculateAll(h: Helpers, user: UserInput, forecastWeeks: int): (r: Result<CalcOutput>)
    ensures h.normalizeInputs(user).Err? ==> r == Err(h.normalizeInputs(user).error)
    // Once normalisation succeeds, the first step that raises decides the result, and the
    // calculation succeeds exactly when no step raises.
    ensures h.normalizeInputs(user).Ok? ==>
      var norm := h.normalizeInputs(user).value;
      var bmi := Bmi.CalculateBmi(norm.weightKg, norm.heightCm);
      && (bmi.Err? ==> r == Err(bmi.error))
      && (bmi.Ok? ==>
        var bmr := h.bmr(user.sex, norm.ageYears, norm.heightCm, norm.weightKg);
        && (bmr.Err? ==> r == Err(bmr.error))
        && (bmr.Ok? ==>
          var tdee := h.tdee(bmr.value, user.activityLevel);
          && (tdee.Err? ==> r == Err(tdee.error))
          && (tdee.Ok? ==>
            var bf := BodyFat.EstimateBodyFatPercentFromBmi(bmi.value, norm.ageYears, user.sex);
            && (bf.Err? ==> r == Err(bf.error))
            && (bf.Ok? ==>
              var ffmi := Ffmi.CalculateFfmi(norm.weightKg, norm.heightCm, bf.value);
              && (ffmi.Err? ==> r == Err(ffmi.error))
              && (ffmi.Ok? ==>
                var split := h.ketoMacros(tdee.value, norm.weightKg, user.goal);
                && (split.Err? ==> r == Err(split.error))
                && (split.Ok? ==>
                  var pairs := h.forecastWeightKg(norm.weightKg, tdee.value, tdee.value, forecastWeeks);
                  && (pairs.Err? ==> r == Err(pairs.error))
                  && (pairs.Ok? ==> r.Ok?)))))))
    ensures r.Ok? ==> h.normalizeInputs(user).Ok?
    ensures r.Ok? ==>
      var norm := h.normalizeInputs(user).value;
      && Bmi.CalculateBmi(norm.weightKg, norm.heightCm) == Ok(r.value.bmi)
      && r.value.bmi > 0.0 && norm.weightKg > 0.0 && norm.heightCm > 0.0
      && h.bmr(user.sex, norm.ageYears, norm.heightCm, norm.weightKg) == Ok(r.value.bmr)
      && h.tdee(r.value.bmr, user.activityLevel) == Ok(r.value.tdee)
      && BodyFat.EstimateBodyFatPercentFromBmi(r.value.bmi, norm.ageYears, user.sex) == Ok(r.value.bodyFatPercentEstimate)
      && Ffmi.CalculateFfmi(norm.weightKg, norm.heightCm, r.value.bodyFatPercentEstimate) == Ok(r.value.ffmi)
      && h.ketoMacros(r.value.tdee, norm.weightKg, user.goal) ==
           Ok(MacroSplit(r.value.macros.caloriesTotal, r.value.macros.proteinG, r.value.macros.fatG, r.value.macros.netCarbsG))
      && h.forecastWeightKg(norm.weightKg, r.value.tdee, r.value.tdee, forecastWeeks) ==
           Ok(FromForecastPoints(r.value.forecast))
  {
    var norm :- h.normalizeInputs(user);
    var bmi :- Bmi.CalculateBmi(norm.weightKg, norm.heightCm);
    var bmr :- h.bmr(user.sex, norm.ageYears, norm.heightCm, norm.weightKg);
    var tdee :- h.tdee(bmr, user.activityLevel);
    var bf :- BodyFat.EstimateBodyFatPercentFromBmi(bmi, norm.ageYears, user.sex);
    var ffmi :- Ffmi.CalculateFfmi(norm.weightKg, norm.heightCm, bf);
    var caloriesTarget := tdee;
    var split :- h.ketoMacros(caloriesTarget, norm.weightKg, user.goal);
    var pairs :- h.forecastWeightKg(norm.weightKg, tdee, caloriesTarget, forecastWeeks);
    ForecastPointsKeepPairs(pairs);
    Ok(CalcOutput(bmi, bmr, tdee, bf, ffmi,
                  Macros(split.calories, split.proteinG, split.fatG, split.netCarbsG),
                  ToForecastPoints(pairs)))
  }

  /** With no forecast horizon given, 24 weeks are forecast. */
  function CalculateAllDefault(h: Helpers, user: UserInput): (r: Result<CalcOutput>)
    ensures r.Ok? ==> h.normalizeInputs(user).Ok? && var norm := h.normalizeInputs(user).value;
      h.forecastWeightKg(norm.weightKg, r.value.tdee, r.value.tdee, DefaultForecastWeeks) == Ok(FromForecastPoints(r.value.forecast))
  {
    CalculateAll(h, user, DefaultForecastWeeks)
  }

  /**
   * A successful calculation has an FFMI exactly when it has a body-fat estimate, and
   * then both are in range: the estimate in [0, 75], the index non-negative.
   */
  lemma FfmiPresentIffBodyFatPresent(h: Helpers, user: UserInput, forecastWeeks: int)
    requires CalculateAll(h, user, forecastWeeks).Ok?
    ensures var out := CalculateAll(h, user, forecastWeeks).value;
      && (out.ffmi.Some? <==> out.bodyFatPercentEstimate.Some?)
      && (out.bodyFatPercentEstimate.Some? ==>
            0.0 <= out.bodyFatPercentEstimate.value <= BodyFat.MaxBodyFat && out.ffmi.value >= 0.0)
  {
  }

  /** Only the macro helper sees the goal: two users differing in goal alone get the same figures elsewhere. */
  lemma GoalReachesOnlyTheMacros(h: Helpers, user: UserInput, goal: Goal, forecastWeeks: int)
    requires h.normalizeInputs(user) == h.normalizeInputs(user.(goal := goal))
    requires CalculateAll(h, user, forecastWeeks).Ok? && CalculateAll(h, user.(goal := goal), forecastWeeks).Ok?
    ensures var a := CalculateAll(h, user, forecastWeeks).value;
      var b := CalculateAll(h, user.(goal := goal), forecastWeeks).value;
      && a.bmi == b.bmi && a.bmr == b.bmr && a.tdee == b.tdee
      && a.bodyFatPercentEstimate == b.bodyFatPercentEstimate && a.ffmi == b.ffmi
      && a.forecast == b.forecast
  {
    var a := CalculateAll(h, user, forecastWeeks).value;
    var b := CalculateAll(h, user.(goal := goal), forecastWeeks).value;
    ForecastPointsKeepPairs(FromForecastPoints(a.forecast));
    FromForecastPointsInjective(a.forecast, b.forecast);
  }

  lemma FromForecastPointsInjective(p: seq<ForecastPoint>, q: seq<ForecastPoint>)
    requires FromForecastPoints(p) == FromForecastPoints(q)
    ensures p == q
  {
    assert |p| == |q|;
    forall i | 0 <= i < |p|
      ensures p[i] == q[i]
    {
      assert FromForecastPoints(p)[i] == FromForecastPoints(q)[i];
    }
  }

  /**
   * The calorie target is the TDEE for every goal: the macro helper is asked for the TDEE's
   * calories and the forecast is made for a target equal to the TDEE.
   */
  lemma CaloriesTargetIsTdee(h: Helpers, user: UserInput, forecastWeeks: int)
    requires CalculateAll(h, user, forecastWeeks).Ok?
    ensures var out := CalculateAll(h, user, forecastWeeks).value;
      var norm := h.normalizeInputs(user).value;
      && h.ketoMacros(out.tdee, norm.weightKg, user.goal).Ok?
      && h.ketoMacros(out.tdee, norm.weightKg, user.goal).value.calories == out.macros.caloriesTotal
      && h.forecastWeightKg(norm.weightKg, out.tdee, out.tdee, forecastWeeks).Ok?
  {
  }

  /**
   * A 17-year-old passes the input schema but not the pipeline: the BMR helper rejects
   * minors, and its ValueError ends the calculation before any later step.
   */
  lemma MinorRejectedByBmr(h: Helpers, forecastWeeks: int)
    requires HelperTestFacts(h)
    requires h.normalizeInputs(MetricUser(17, 180.0, 80.0)) == Ok(NormalizedInput(180.0, 80.0, 17))
    ensures MetricUser(17, 180.0, 80.0).Valid()
    ensures CalculateAll(h, MetricUser(17, 180.0, 80.0), forecastWeeks) == Err(h.bmr(Male, 17, 180.0, 80.0).error)
    ensures IsValueError(CalculateAll(h, MetricUser(17, 180.0, 80.0), forecastWeeks))
  {
    var bmi := Bmi.CalculateBmi(80.0, 180.0);
    assert bmi.Ok?;
  }

  /** A normalisation that yields a non-positive weight or height fails with the BMI's error. */
  lemma BadNormalisedFiguresRejected(h: Helpers, user: UserInput, forecastWeeks: int)
    requires h.normalizeInputs(user).Ok?
    requires h.normalizeInputs(user).value.weightKg <= 0.0 || h.normalizeInputs(user).value.heightCm <= 0.0
    ensures IsValueError(CalculateAll(h, user, forecastWeeks))
  {
  }

  /**
   * The metric happy path of the calculation test (male, 25, 180 cm, 80 kg, moderately
   * active, a 4-week forecast): given the helper facts the tests assert, and the two that
   * only the pipeline test implies (the macro helper yields positive calories for this
   * TDEE and the forecast helper yields weeks 0 to 4), every figure is positive, BMR and
   * TDEE are the tested values, and there are 5 forecast points and a body-fat estimate.
   */
  lemma MetricHappyPath(h: Helpers, split: MacroSplit, pairs: seq<(int, real)>)
    requires HelperTestFacts(h)
    requires h.normalizeInputs(MetricUser(25, 180.0, 80.0)).value.ageYears == 25
    requires h.ketoMacros(2797.75, 80.0, Maintain) == Ok(split) && split.calories > 0.0
    requires h.forecastWeightKg(80.0, 2797.75, 2797.75, 4) == Ok(pairs) && |pairs| == 5
    ensures var r := CalculateAll(h, MetricUser(25, 180.0, 80.0), 4);
      && MetricUser(25, 180.0, 80.0).Valid()
      && r.Ok? && r.value.bmi > 0.0 && r.value.bmr == 1805.0 && r.value.tdee == 2797.75
      && r.value.macros.caloriesTotal > 0.0 && |r.value.forecast| == 5
      && r.value.bodyFatPercentEstimate.Some? && r.value.ffmi.Some?
  {
    var norm := h.normalizeInputs(MetricUser(25, 180.0, 80.0)).value;
    assert norm == NormalizedInput(180.0, 80.0, 25);
    var bmi := Bmi.CalculateBmi(80.0, 180.0);
    assert bmi.Ok? && bmi.value > 0.0;
  }
}
