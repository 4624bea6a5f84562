/**
 * backend/app.py, prediction side: the linear fallback model
 * (`create_simple_model`, `simple_predict`) and the `/api/predict` handler.
 * Which model is used depends on files and libraries at run time; the model
 * choice is a parameter here, and the random-forest model is an opaque
 * function of the feature vector.
 */
module BackendPredict {
  import opened Common
  import opened Advisory
  import opened Request

  /** The feature order both models are trained and queried with. */
  const FeatureNames: seq<string> :=
    ["rainfall", "temperature", "soil_ph", "nitrogen", "phosphorus", "potassium", "sowing_offset"]

  const MinimumYield: real := 0.5

  /** The content of `simple_model.json`: an intercept and one coefficient per feature name. */
  datatype LinearModel = LinearModel(intercept: real, coefficients: map<string, real>)

  /** `create_simple_model`: the coefficients the fallback model is written with. */
  const DefaultLinearModel: LinearModel := LinearModel(1.0, map[
    "rainfall" := 0.01, "temperature" := 0.05, "soil_ph" := 0.3, "nitrogen" := 0.02,
    "phosphorus" := 0.03, "potassium" := 0.015, "sowing_offset" := -0.05])

  /** The model has a coefficient for every feature it is queried with. */
  predicate Complete(model: LinearModel)
  {
    forall name :: name in FeatureNames ==> name in model.coefficients
  }

  /** The coefficients, in feature order. */
  function Weights(model: LinearModel): (w: seq<real>)
    requires Complete(model)
    ensures |w| == |FeatureNames|
    ensures forall i :: 0 <= i < |w| ==> w[i] == model.coefficients[FeatureNames[i]]
  {
    seq(|FeatureNames|, i requires 0 <= i < |FeatureNames| => model.coefficients[FeatureNames[i]])
  }

  /** The sum of feature times weight, taken in feature order. */
  function WeightedSum(features: seq<real>, weights: seq<real>): real
    requires |features| == |weights|
  {
    if features == [] then 0.0 else
      var n := |features| - 1;
      WeightedSum(features[..n], weights[..n]) + features[n] * weights[n]
  }

  /** What the linear model promises: its linear score, never below 0.5. */
  function LinearPrediction(features: seq<real>, model: LinearModel): real
    requires |features| == |FeatureNames| && Complete(model)
  {
    var score := model.intercept + WeightedSum(features, Weights(model));
    if score < MinimumYield then MinimumYield else score
  }

  /** `simple_predict`: accumulate `features[i] * coefficients[name]` over the names, then floor. */
  method SimplePredict(features: seq<real>, model: LinearModel) returns (prediction: real)
    requires |features| == |FeatureNames| && Complete(model)
    ensures prediction == LinearPrediction(features, model)
    ensures prediction >= MinimumYield
  {
    var weights := Weights(model);
    prediction := model.intercept;
    for i := 0 to |FeatureNames|
      invariant prediction == model.intercept + WeightedSum(features[..i], weights[..i])
    {
      assert features[..i + 1][..i] == features[..i] && weights[..i + 1][..i] == weights[..i];
      prediction := prediction + features[i] * model.coefficients[FeatureNames[i]];
    }
    assert features[..|FeatureNames|] == features && weights[..|FeatureNames|] == weights;
    if prediction < MinimumYield {
      prediction := MinimumYield;
    }
  }

  /** The linear score written out term by term: the intercept plus each feature times its coefficient. */
  lemma LinearPredictionExplicit(f: seq<real>, model: LinearModel)
    requires |f| == |FeatureNames| && Complete(model)
    ensures var c := model.coefficients;
      var score := model.intercept
        + f[0] * c["rainfall"] + f[1] * c["temperature"] + f[2] * c["soil_ph"]
        + f[3] * c["nitrogen"] + f[4] * c["phosphorus"] + f[5] * c["potassium"]
        + f[6] * c["sowing_offset"];
      LinearPrediction(f, model) == if score < 0.5 then 0.5 else score
  {
    var w := Weights(model);
    assert f[..7] == f && w[..7] == w;
    assert f[..7][..6] == f[..6] && w[..7][..6] == w[..6];
    assert f[..6][..5] == f[..5] && w[..6][..5] == w[..5];
    assert f[..5][..4] == f[..4] && w[..5][..4] == w[..4];
    assert f[..4][..3] == f[..3] && w[..4][..3] == w[..3];
    assert f[..3][..2] == f[..2] && w[..3][..2] == w[..2];
    assert f[..2][..1] == f[..1] && w[..2][..1] == w[..1];
    assert f[..1][..0] == [] && w[..1][..0] == [];
    assert WeightedSum(f[..1], w[..1]) == f[0] * w[0];
    assert WeightedSum(f[..2], w[..2]) == f[0] * w[0] + f[1] * w[1];
    assert WeightedSum(f[..3], w[..3]) == f[0] * w[0] + f[1] * w[1] + f[2] * w[2];
    assert WeightedSum(f[..4], w[..4]) == f[0] * w[0] + f[1] * w[1] + f[2] * w[2] + f[3] * w[3];
    assert WeightedSum(f[..5], w[..5])
      == f[0] * w[0] + f[1] * w[1] + f[2] * w[2] + f[3] * w[3] + f[4] * w[4];
    assert WeightedSum(f[..6], w[..6])
      == f[0] * w[0] + f[1] * w[1] + f[2] * w[2] + f[3] * w[3] + f[4] * w[4] + f[5] * w[5];
  }

  lemma DefaultModelComplete()
    ensures Complete(DefaultLinearModel)
  {
  }

  /**
   * In the default model the sowing offset enters signed: above the floor,
   * sowing d days late scores 0.1 * d lower than sowing d days early.
   */
  lemma DefaultModelOffsetIsSigned(features: seq<real>, d: real)
    requires |features| == |FeatureNames|
    ensures Complete(DefaultLinearModel)
    ensures var late := features[6 := d];
      var early := features[6 := -d];
      WeightedSum(late, Weights(DefaultLinearModel)) + 0.1 * d
        == WeightedSum(early, Weights(DefaultLinearModel))
  {
    var w := Weights(DefaultLinearModel);
    var late := features[6 := d];
    var early := features[6 := -d];
    assert late[..6] == early[..6];
    assert w[6] == -0.05;
  }

  /** Python's `int(x)` on a float: truncation toward zero. */
  function TruncateToInt(x: real): (n: int)
    ensures 0.0 <= x ==> n as real <= x < n as real + 1.0
    ensures x < 0.0 ==> n as real - 1.0 < x <= n as real
  {
    if x < 0.0 then -((-x).Floor) else x.Floor
  }

  /** The feature vector `predict_yield` builds; the sowing offset goes through `int()`. */
  function Features(m: Measurement): (f: seq<real>)
    ensures |f| == |FeatureNames|
  {
    [m.rainfall, m.temperature, m.soilPh, m.nitrogen, m.phosphorus, m.potassium,
     TruncateToInt(m.sowingOffset) as real]
  }

  /** Which model answers: the trained forest, the linear fallback file, or neither. */
  datatype ModelChoice =
    | Forest(predict: seq<real> -> real)
    | Linear(model: LinearModel)
    | NoModel

  predicate Usable(choice: ModelChoice)
  {
    choice.Linear? ==> Complete(choice.model)
  }

  /** The prediction of the chosen model; without any model, an unfloored three-feature formula. */
  function ModelPrediction(choice: ModelChoice, features: seq<real>): real
    requires |features| == |FeatureNames| && Usable(choice)
  {
    match choice
    case Forest(predict) => predict(features)
    case Linear(model) => LinearPrediction(features, model)
    case NoModel => 2.0 + features[0] * 0.005 + features[1] * 0.02 + features[2] * 0.2
  }

  /** The advisory texts of backend/app.py. */
  function Text(a: Advice): string
  {
    match a
    case HighTemperature => "High temperature detected. Increase irrigation frequency and consider shade nets."
    case LowRainfall => "Low rainfall. Implement drip irrigation or supplemental watering."
    case AcidicSoil => "Soil is acidic. Apply lime to increase pH for better nutrient uptake."
    case AlkalineSoil => "Soil is alkaline. Apply sulfur or organic matter to reduce pH."
    case LowNitrogen => "Nitrogen deficiency. Apply nitrogen-rich fertilizers or compost."
    case LowPhosphorus => "Low phosphorus levels. Apply phosphate fertilizers before flowering."
    case LowPotassium => "Potassium deficiency. Apply potash fertilizers for better fruit quality."
    case LowYield => "Low yield predicted. Consider crop rotation or soil testing."
  }

  datatype Response =
    | MissingFieldsError(missing: seq<string>, required: seq<string>)
    | ServerError
    | Prediction(predictedYield: real, risk: Risk, advice: seq<Advice>, recommendations: seq<string>)

  /** The branch of `predict_yield` that asks the installed model, or applies the fallback formula. */
  method RunModel(choice: ModelChoice, features: seq<real>) returns (prediction: real)
    requires |features| == |FeatureNames| && Usable(choice)
    ensures prediction == ModelPrediction(choice, features)
    ensures choice.Linear? ==> prediction >= MinimumYield
  {
    match choice {
      case Forest(predict) =>
        prediction := predict(features);
      case Linear(model) =>
        prediction := SimplePredict(features, model);
      case NoModel =>
        prediction := 2.0 + features[0] * 0.005 + features[1] * 0.02 + features[2] * 0.2;
    }
  }

  /** `predict_yield`: validate, build the features, ask the model, advise, rate. */
  method PredictYield(payload: Payload, choice: ModelChoice) returns (r: Response)
    requires Usable(choice)
    ensures r.MissingFieldsError? <==> MissingFields(payload) != []
    ensures r.MissingFieldsError? ==> r.missing == MissingFields(payload) && r.required == RequiredFields
    ensures r.ServerError? <==> MissingFields(payload) == [] && ReadMeasurement(payload).None?
    ensures r.Prediction? ==>
      var m := ReadMeasurement(payload).value;
      && r.predictedYield == ModelPrediction(choice, Features(m))
      && r.advice == Recommendations(m, r.predictedYield)
      && r.recommendations == Texts(r.advice, Text)
      && r.risk == RiskLevel(r.predictedYield, |r.recommendations|)
    ensures r.Prediction? && choice.Linear? ==> r.predictedYield >= MinimumYield
  {
    var missing := MissingFields(payload);
    if missing != [] {
      return MissingFieldsError(missing, RequiredFields);
    }
    var measurement := ReadMeasurement(payload);
    if measurement.None? {
      return ServerError;
    }
    var m := measurement.value;
    var prediction := RunModel(choice, Features(m));
    var advice := Recommendations(m, prediction);
    var recommendations := Texts(advice, Text);
    r := Prediction(prediction, RiskLevel(prediction, |recommendations|), advice, recommendations);
  }
}
