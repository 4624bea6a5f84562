/**
 * app.py: the stand-alone rule-based yield estimator and its `/predict`
 * endpoint. Values are exact reals; the endpoint's `round(prediction, 2)` is
 * not modelled, and the advisories and the risk tier use the unrounded value,
 * as the source does.
 */
module Estimator {
  import opened Common
  import opened Advisory
  import opened Request

  const BaseYield: real := 2.0
  const YieldFloor: real := 0.5

  /** +0.5 on [180, 350], -0.4 below, +0.2 above. */
  function RainfallBonus(rainfall: real): real
  {
    if 180.0 <= rainfall && rainfall <= 350.0 then 0.5
    else if rainfall < 180.0 then -0.4
    else 0.2
  }

  /** +0.4 on [26, 32], -0.3 elsewhere. */
  function TemperatureBonus(temperature: real): real
  {
    if 26.0 <= temperature && temperature <= 32.0 then 0.4 else -0.3
  }

  /** +0.3 on [6.0, 7.5], -0.2 elsewhere. */
  function PhBonus(soilPh: real): real
  {
    if 6.0 <= soilPh && soilPh <= 7.5 then 0.3 else -0.2
  }

  function Abs(x: real): real
  {
    if x < 0.0 then -x else x
  }

  function NutrientScore(m: Measurement): real
  {
    (m.nitrogen + m.phosphorus + m.potassium) / 300.0
  }

  function SowingPenalty(m: Measurement): real
  {
    Abs(m.sowingOffset) * 0.05
  }

  /** The yield before the floor is applied. */
  function UnclampedYield(m: Measurement): (y: real)
    ensures 1.1 + NutrientScore(m) - SowingPenalty(m) <= y <= 3.2 + NutrientScore(m) - SowingPenalty(m)
  {
    BaseYield + RainfallBonus(m.rainfall) + TemperatureBonus(m.temperature) + PhBonus(m.soilPh)
      + NutrientScore(m) - SowingPenalty(m)
  }

  /** `predict_crop_yield`: `max(0.5, yield_prediction)`. */
  function PredictCropYield(m: Measurement): (y: real)
    ensures y >= YieldFloor
    ensures y >= UnclampedYield(m)
    ensures y == YieldFloor || y == UnclampedYield(m)
  {
    if UnclampedYield(m) < YieldFloor then YieldFloor else UnclampedYield(m)
  }

  /** Each bonus by range, both ends of every range included. */
  lemma BonusRanges(m: Measurement)
    ensures RainfallBonus(m.rainfall) == 0.5 <==> 180.0 <= m.rainfall <= 350.0
    ensures RainfallBonus(m.rainfall) == -0.4 <==> m.rainfall < 180.0
    ensures RainfallBonus(m.rainfall) == 0.2 <==> m.rainfall > 350.0
    ensures TemperatureBonus(m.temperature) == 0.4 <==> 26.0 <= m.temperature <= 32.0
    ensures TemperatureBonus(m.temperature) == -0.3 <==> !(26.0 <= m.temperature <= 32.0)
    ensures PhBonus(m.soilPh) == 0.3 <==> 6.0 <= m.soilPh <= 7.5
    ensures PhBonus(m.soilPh) == -0.2 <==> !(6.0 <= m.soilPh <= 7.5)
  {
  }

  /** Above the floor the yield is exactly the sum of its terms. */
  lemma YieldAboveFloor(m: Measurement)
    requires UnclampedYield(m) >= YieldFloor
    ensures PredictCropYield(m) ==
      2.0 + RainfallBonus(m.rainfall) + TemperatureBonus(m.temperature) + PhBonus(m.soilPh)
        + (m.nitrogen + m.phosphorus + m.potassium) / 300.0 - 0.05 * Abs(m.sowingOffset)
  {
  }

  /** Sowing d days early or d days late costs the same. */
  lemma SowingOffsetSymmetric(m: Measurement, d: real)
    ensures PredictCropYield(m.(sowingOffset := d)) == PredictCropYield(m.(sowingOffset := -d))
  {
  }

  /** More nutrients never lower the yield. */
  lemma YieldMonotoneInNutrients(m: Measurement, n: Measurement)
    requires m.rainfall == n.rainfall && m.temperature == n.temperature && m.soilPh == n.soilPh
    requires m.sowingOffset == n.sowingOffset
    requires m.nitrogen + m.phosphorus + m.potassium <= n.nitrogen + n.phosphorus + n.potassium
    ensures PredictCropYield(m) <= PredictCropYield(n)
  {
  }

  /** Sowing further from the ideal date never raises the yield. */
  lemma YieldMonotoneInOffset(m: Measurement, n: Measurement)
    requires m.rainfall == n.rainfall && m.temperature == n.temperature && m.soilPh == n.soilPh
    requires m.nitrogen == n.nitrogen && m.phosphorus == n.phosphorus && m.potassium == n.potassium
    requires Abs(m.sowingOffset) <= Abs(n.sowingOffset)
    ensures PredictCropYield(m) >= PredictCropYield(n)
  {
  }

  /** The advisory texts of app.py. */
  function Text(a: Advice): string
  {
    match a
    case HighTemperature => "High temperature detected. Increase irrigation and use shade nets."
    case LowRainfall => "Low rainfall. Consider drip irrigation system."
    case AcidicSoil => "Acidic soil. Apply lime to increase pH."
    case AlkalineSoil => "Alkaline soil. Add organic matter to reduce pH."
    case LowNitrogen => "Low nitrogen. Apply nitrogen-rich fertilizers."
    case LowPhosphorus => "Low phosphorus. Use phosphate fertilizers."
    case LowPotassium => "Low potassium. Apply potash fertilizers."
    case LowYield => "Low yield predicted. Consider soil testing and crop rotation."
  }

  /** What `/predict` answers: 400 with the missing keys, 500 on a non-numeric value, or the prediction. */
  datatype Response =
    | MissingFieldsError(missing: seq<string>)
    | ServerError
    | Prediction(predictedYield: real, risk: Risk, advice: seq<Advice>, recommendations: seq<string>)

  /** `predict`: validate, estimate, advise, rate. */
  function Predict(payload: Payload): (r: Response)
    ensures r.MissingFieldsError? <==> MissingFields(payload) != []
    ensures r.MissingFieldsError? ==> r.missing == MissingFields(payload)
    ensures r.ServerError? <==> MissingFields(payload) == [] && ReadMeasurement(payload).None?
    ensures r.Prediction? ==>
      var m := ReadMeasurement(payload).value;
      && r.predictedYield == PredictCropYield(m)
      && r.advice == Recommendations(m, r.predictedYield)
      && r.recommendations == Texts(r.advice, Text)
      && r.risk == RiskLevel(r.predictedYield, |r.recommendations|)
  {
    var missing := MissingFields(payload);
    if missing != [] then MissingFieldsError(missing)
    else match ReadMeasurement(payload)
      case None => ServerError
      case Some(m) =>
        var prediction := PredictCropYield(m);
        var advice := Recommendations(m, prediction);
        Prediction(prediction, RiskLevel(prediction, |advice|), advice, Texts(advice, Text))
  }

  /** A Green answer needs a yield of at least 2.8 and at most one advisory. */
  lemma GreenNeedsHighYieldAndFewAdvisories(payload: Payload)
    requires Predict(payload).Prediction? && Predict(payload).risk == Green
    ensures Predict(payload).predictedYield >= 2.8 && |Predict(payload).recommendations| <= 1
  {
    var r := Predict(payload);
    RiskTiers(r.predictedYield, |r.recommendations|);
  }

  /** Rainfall 180, 26 degrees, pH 6.0, 100 kg/ha of each nutrient, sown on time: 4.2, no advice, Green. */
  lemma OptimalBoundaryExample()
    ensures var m := Measurement(180.0, 26.0, 6.0, 100.0, 100.0, 100.0, 0.0);
      && PredictCropYield(m) == 4.2
      && Recommendations(m, PredictCropYield(m)) == []
      && RiskLevel(PredictCropYield(m), 0) == Green
  {
  }

  /**
   * Rainfall 50, 40 degrees, pH 8.0, 10 kg/ha of each nutrient, 20 days off:
   * the sum 0.2 is floored to 0.5, seven advisories fire, and the tier is Red.
   */
  lemma AdverseExample()
    ensures var m := Measurement(50.0, 40.0, 8.0, 10.0, 10.0, 10.0, 20.0);
      && UnclampedYield(m) == 0.2
      && PredictCropYield(m) == 0.5
      && Recommendations(m, 0.5) ==
           [HighTemperature, LowRainfall, AlkalineSoil, LowNitrogen, LowPhosphorus, LowPotassium, LowYield]
      && RiskLevel(0.5, 7) == Red
  {
  }
}
