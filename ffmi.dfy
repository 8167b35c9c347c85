/**
 * Fat-Free Mass Index (backend/app/formulas/ffmi.py):
 * FFMI = weight_kg·(1 − bf/100) / height_m².
 */
module Ffmi {
  import opened Outcomes
  import Bmi

  const BodyFatMessage := "body_fat_percent must be between 0 and 100"

  /**
   * None when there is no body-fat figure (before any other check); then the
   * body-fat range, the weight and the height are checked in that order.
   */
  function CalculateFfmi(weightKg: real, heightCm: real, bodyFatPercent: Option<real>): (r: Result<Option<real>>)
    ensures bodyFatPercent.None? ==> r == Ok(None)
    ensures bodyFatPercent.Some? && !(0.0 <= bodyFatPercent.value <= 100.0) ==>
      r == Err(ValueError(BodyFatMessage))
    ensures bodyFatPercent.Some? && 0.0 <= bodyFatPercent.value <= 100.0 && weightKg <= 0.0 ==>
      r == Err(ValueError(Bmi.WeightMessage))
    ensures bodyFatPercent.Some? && 0.0 <= bodyFatPercent.value <= 100.0 && weightKg > 0.0 && heightCm <= 0.0 ==>
      r == Err(ValueError(Bmi.HeightMessage))
    ensures bodyFatPercent.Some? && 0.0 <= bodyFatPercent.value <= 100.0 && weightKg > 0.0 && heightCm > 0.0 ==>
      && r.Ok? && r.value.Some? && r.value.value >= 0.0
      && r.value.value * (heightCm / 100.0) * (heightCm / 100.0)
         == weightKg * (1.0 - bodyFatPercent.value / 100.0)
  {
    if bodyFatPercent.None? then Ok(None)
    else
      var bf := bodyFatPercent.value;
      if !(0.0 <= bf <= 100.0) then Err(ValueError(BodyFatMessage))
      else if weightKg <= 0.0 then Err(ValueError(Bmi.WeightMessage))
      else if heightCm <= 0.0 then Err(ValueError(Bmi.HeightMessage))
      else
        var heightM := heightCm / 100.0;
        var fatFreeMassKg := weightKg * (1.0 - bf / 100.0);
        var ffmi := fatFreeMassKg / (heightM * heightM);
        assert fatFreeMassKg >= 0.0;
        QuotientNonNegative(fatFreeMassKg, heightM);
        QuotientTimesSquare(fatFreeMassKg, heightM);
        Ok(Some(ffmi))
  }

  /** a / h² is non-negative for a ≥ 0 and h > 0. */
  lemma QuotientNonNegative(a: real, h: real)
    requires a >= 0.0 && h > 0.0
    ensures a / (h * h) >= 0.0
  {
    if a > 0.0 {
      QuotientPositive(a, h);
    } else {
      ZeroQuotient(h);
    }
  }

  lemma QuotientPositive(a: real, h: real)
    requires a > 0.0 && h > 0.0
    ensures a / (h * h) > 0.0
  {
    assert h * h > 0.0;
  }

  lemma ZeroQuotient(h: real)
    requires h > 0.0
    ensures 0.0 / (h * h) == 0.0
  {
  }

  lemma ProductZero(f: real, h: real)
    requires f >= 0.0 && h > 0.0 && f * h * h == 0.0
    ensures f == 0.0
  {
    if f > 0.0 {
      ProductPositive(f, h);
      ProductPositive(f * h, h);
    }
  }

  lemma ProductPositive(x: real, y: real)
    requires x > 0.0 && y > 0.0
    ensures x * y > 0.0
  {
  }

  /** Multiplying a / h² back by h twice gives a. */
  lemma QuotientTimesSquare(a: real, h: real)
    requires h > 0.0
    ensures (a / (h * h)) * h * h == a
  {
    QuotientTimesProduct(a, h);
  }

  lemma QuotientTimesProduct(a: real, h: real)
    requires h > 0.0
    ensures (a / (h * h)) * (h * h) == a
  {
  }

  /** Both ends of the body-fat range are accepted; 120 % is rejected. */
  lemma FfmiBodyFatRange(weightKg: real, heightCm: real)
    requires weightKg > 0.0 && heightCm > 0.0
    ensures CalculateFfmi(weightKg, heightCm, Some(0.0)).Ok?
    ensures CalculateFfmi(weightKg, heightCm, Some(100.0)).Ok?
    ensures CalculateFfmi(80.0, 180.0, Some(120.0)) == Err(ValueError(BodyFatMessage))
    ensures CalculateFfmi(80.0, 180.0, None) == Ok(None)
  {
  }

  /** At 100 % body fat the index is 0. */
  lemma FfmiZeroAtFullFat(weightKg: real, heightCm: real)
    requires weightKg > 0.0 && heightCm > 0.0
    ensures CalculateFfmi(weightKg, heightCm, Some(100.0)) == Ok(Some(0.0))
  {
    var f := CalculateFfmi(weightKg, heightCm, Some(100.0)).value.value;
    assert weightKg * (1.0 - 100.0 / 100.0) == 0.0;
    ProductZero(f, heightCm / 100.0);
  }

  /** At 0 % body fat the index is the BMI of the same weight and height. */
  lemma FfmiAtZeroFatIsBmi(weightKg: real, heightCm: real)
    requires weightKg > 0.0 && heightCm > 0.0
    ensures CalculateFfmi(weightKg, heightCm, Some(0.0)) == Ok(Some(Bmi.CalculateBmi(weightKg, heightCm).value))
  {
  }

  /** More body fat never raises the index. */
  lemma FfmiNonIncreasingInBodyFat(weightKg: real, heightCm: real, bf1: real, bf2: real)
    requires weightKg > 0.0 && heightCm > 0.0 && 0.0 <= bf1 <= bf2 <= 100.0
    ensures CalculateFfmi(weightKg, heightCm, Some(bf1)).value.value
         >= CalculateFfmi(weightKg, heightCm, Some(bf2)).value.value
  {
    var hm := heightCm / 100.0;
    var f1 := CalculateFfmi(weightKg, heightCm, Some(bf1)).value.value;
    var f2 := CalculateFfmi(weightKg, heightCm, Some(bf2)).value.value;
    assert f1 * (hm * hm) == weightKg * (1.0 - bf1 / 100.0);
    assert f2 * (hm * hm) == weightKg * (1.0 - bf2 / 100.0);
    assert weightKg * (1.0 - bf1 / 100.0) >= weightKg * (1.0 - bf2 / 100.0);
    assert hm * hm > 0.0;
  }

  /** 80 kg, 180 cm and 19.18 % body fat give an index of 19.95 to within 0.05. */
  lemma FfmiKnownValue()
    ensures CalculateFfmi(80.0, 180.0, Some(19.18)).Ok?
    ensures 19.90 <= CalculateFfmi(80.0, 180.0, Some(19.18)).value.value <= 20.00
  {
    var f := CalculateFfmi(80.0, 180.0, Some(19.18)).value.value;
    assert f * 1.8 * 1.8 == 80.0 * (1.0 - 19.18 / 100.0);
  }
}
