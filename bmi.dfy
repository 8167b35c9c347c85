/** Body Mass Index (backend/app/formulas/bmi.py), over exact reals. */
module Bmi {
  import opened Outcomes

  const WeightMessage := "weight_kg must be > 0"
  const HeightMessage := "height_cm must be > 0"

  /**
   * BMI = weight_kg / height_m², with height_m = height_cm / 100. The weight is
   * checked before the height.
   */
  function CalculateBmi(weightKg: real, heightCm: real): (r: Result<real>)
    ensures weightKg <= 0.0 ==> r == Err(ValueError(WeightMessage))
    ensures weightKg > 0.0 && heightCm <= 0.0 ==> r == Err(ValueError(HeightMessage))
    ensures weightKg > 0.0 && heightCm > 0.0 ==>
      r.Ok? && r.value > 0.0 && r.value * (heightCm / 100.0) * (heightCm / 100.0) == weightKg
  {
    if weightKg <= 0.0 then Err(ValueError(WeightMessage))
    else if heightCm <= 0.0 then Err(ValueError(HeightMessage))
    else
      var heightM := heightCm / 100.0;
      assert heightM * heightM > 0.0;
      Ok(weightKg / (heightM * heightM))
  }

  /** At a height of one metre the BMI is the weight itself. */
  lemma BmiAtOneMetre(weightKg: real)
    requires weightKg > 0.0
    ensures CalculateBmi(weightKg, 100.0) == Ok(weightKg)
  {
  }

  /** 93 kg at 175 cm gives a BMI of 30.367 to within 0.001. */
  lemma BmiKnownValue()
    ensures CalculateBmi(93.0, 175.0).Ok?
    ensures 30.366 <= CalculateBmi(93.0, 175.0).value <= 30.368
  {
    var b := CalculateBmi(93.0, 175.0).value;
    assert b * 1.75 * 1.75 == 93.0;
  }

  /** Both arguments are rejected at zero, the weight first. */
  lemma BmiRejectsZero()
    ensures CalculateBmi(0.0, 175.0) == Err(ValueError(WeightMessage))
    ensures CalculateBmi(93.0, 0.0) == Err(ValueError(HeightMessage))
    ensures CalculateBmi(0.0, 0.0) == Err(ValueError(WeightMessage))
  {
  }

  /** For a fixed height, more weight means a strictly higher BMI. */
  lemma BmiIncreasingInWeight(w1: real, w2: real, heightCm: real)
    requires 0.0 < w1 < w2 && heightCm > 0.0
    ensures CalculateBmi(w1, heightCm).value < CalculateBmi(w2, heightCm).value
  {
    var hm := heightCm / 100.0;
    var b1, b2 := CalculateBmi(w1, heightCm).value, CalculateBmi(w2, heightCm).value;
    assert b1 * (hm * hm) == w1 && b2 * (hm * hm) == w2;
    assert hm * hm > 0.0;
  }

  /** For a fixed weight, more height means a strictly lower BMI. */
  lemma BmiDecreasingInHeight(weightKg: real, h1: real, h2: real)
    requires weightKg > 0.0 && 0.0 < h1 < h2
    ensures CalculateBmi(weightKg, h1).value > CalculateBmi(weightKg, h2).value
  {
    var m1, m2 := h1 / 100.0, h2 / 100.0;
    var b1, b2 := CalculateBmi(weightKg, h1).value, CalculateBmi(weightKg, h2).value;
    assert b1 * (m1 * m1) == weightKg && b2 * (m2 * m2) == weightKg;
    assert 0.0 < m1 < m2;
    assert m1 * m1 < m2 * m2;
  }
}
