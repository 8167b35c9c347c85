/**
 * The BMI-based body-fat estimate (backend/app/formulas/bodyfat.py):
 * BF% = 1.20·BMI + 0.23·age − 10.8·[male] − 5.4, clamped to [0, 75], adults only.
 */
module BodyFat {
  import opened Outcomes
  import opened Models

  const BmiMessage := "bmi must be > 0"
  const AdultAge := 18
  const MaxBodyFat := 75.0

  function SexBit(sex: Sex): real {
    if sex == Male then 1.0 else 0.0
  }

  /** The unclamped adult formula. */
  function RawEstimate(bmi: real, ageYears: int, sex: Sex): real {
    1.20 * bmi + 0.23 * ageYears as real - 10.8 * SexBit(sex) - 5.4
  }

  /**
   * None for a minor (checked before the BMI); an error for a non-positive BMI;
   * otherwise the formula clamped to [0, 75].
   */
  function EstimateBodyFatPercentFromBmi(bmi: real, ageYears: int, sex: Sex): (r: Result<Option<real>>)
    ensures ageYears < AdultAge ==> r == Ok(None)
    ensures ageYears >= AdultAge && bmi <= 0.0 ==> r == Err(ValueError(BmiMessage))
    ensures ageYears >= AdultAge && bmi > 0.0 ==> r.Ok? && r.value.Some?
    ensures r.Ok? && r.value.Some? ==> 0.0 <= r.value.value <= MaxBodyFat
    ensures r.Ok? && r.value.Some? ==>
      var raw := RawEstimate(bmi, ageYears, sex);
      && (0.0 <= raw <= MaxBodyFat ==> r.value.value == raw)
      && (raw < 0.0 ==> r.value.value == 0.0)
      && (raw > MaxBodyFat ==> r.value.value == MaxBodyFat)
  {
    if ageYears < AdultAge then Ok(None)
    else if bmi <= 0.0 then Err(ValueError(BmiMessage))
    else
      var bf := RawEstimate(bmi, ageYears, sex);
      Ok(Some(Max(0.0, Min(MaxBodyFat, bf))))
  }

  function Max(a: real, b: real): real {
    if a >= b then a else b
  }

  function Min(a: real, b: real): real {
    if a <= b then a else b
  }

  /** A minor gets no estimate even with a BMI that an adult would be rejected for. */
  lemma MinorGetsNoneEvenForZeroBmi(sex: Sex)
    ensures EstimateBodyFatPercentFromBmi(0.0, 17, sex) == Ok(None)
    ensures EstimateBodyFatPercentFromBmi(22.0, 17, Male) == Ok(None)
    ensures EstimateBodyFatPercentFromBmi(0.0, 30, Female) == Err(ValueError(BmiMessage))
  {
  }

  /** BMI 30.367, age 30, male: 27.1404 exactly. */
  lemma BodyFatKnownValue()
    ensures EstimateBodyFatPercentFromBmi(30.367, 30, Male) == Ok(Some(27.1404))
  {
    assert RawEstimate(30.367, 30, Male) == 27.1404;
  }

  /** For the same BMI and age, the male estimate never exceeds the female one. */
  lemma MaleNotAboveFemale(bmi: real, ageYears: int)
    requires bmi > 0.0 && ageYears >= AdultAge
    ensures EstimateBodyFatPercentFromBmi(bmi, ageYears, Male).value.value
         <= EstimateBodyFatPercentFromBmi(bmi, ageYears, Female).value.value
  {
    assert RawEstimate(bmi, ageYears, Male) == RawEstimate(bmi, ageYears, Female) - 10.8;
  }

  /** The estimate never decreases as the BMI grows. */
  lemma NonDecreasingInBmi(b1: real, b2: real, ageYears: int, sex: Sex)
    requires 0.0 < b1 <= b2 && ageYears >= AdultAge
    ensures EstimateBodyFatPercentFromBmi(b1, ageYears, sex).value.value
         <= EstimateBodyFatPercentFromBmi(b2, ageYears, sex).value.value
  {
    assert RawEstimate(b1, ageYears, sex) <= RawEstimate(b2, ageYears, sex);
  }

  /** The estimate never decreases with age (among adults). */
  lemma NonDecreasingInAge(bmi: real, a1: int, a2: int, sex: Sex)
    requires bmi > 0.0 && AdultAge <= a1 <= a2
    ensures EstimateBodyFatPercentFromBmi(bmi, a1, sex).value.value
         <= EstimateBodyFatPercentFromBmi(bmi, a2, sex).value.value
  {
    assert RawEstimate(bmi, a1, sex) <= RawEstimate(bmi, a2, sex);
  }
}
