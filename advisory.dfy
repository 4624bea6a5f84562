/**
 * The advisory and risk-tier rules. app.py and backend/app.py each carry a
 * copy of these two rules with identical thresholds and order; only the
 * wording of the advisories differs, so the rules are defined once here and
 * each file keeps its own text table (Estimator.Text, BackendPredict.Text).
 */
module Advisory {
  import opened Ordering

  /** The numeric part of a prediction request. */
  datatype Measurement = Measurement(
    rainfall: real,
    temperature: real,
    soilPh: real,
    nitrogen: real,
    phosphorus: real,
    potassium: real,
    sowingOffset: real)

  /** One advisory per threshold check, named after the condition it reports. */
  datatype Advice =
    | HighTemperature
    | LowRainfall
    | AcidicSoil
    | AlkalineSoil
    | LowNitrogen
    | LowPhosphorus
    | LowPotassium
    | LowYield

  /** The eight checks in the order the source performs them. */
  const CheckOrder: seq<Advice> :=
    [HighTemperature, LowRainfall, AcidicSoil, AlkalineSoil,
     LowNitrogen, LowPhosphorus, LowPotassium, LowYield]

  /** The threshold behind each advisory. */
  predicate Triggered(a: Advice, m: Measurement, prediction: real)
  {
    match a
    case HighTemperature => m.temperature > 32.0
    case LowRainfall => m.rainfall < 180.0
    case AcidicSoil => m.soilPh < 6.0
    case AlkalineSoil => m.soilPh > 7.5
    case LowNitrogen => m.nitrogen < 70.0
    case LowPhosphorus => m.phosphorus < 35.0
    case LowPotassium => m.potassium < 55.0
    case LowYield => prediction < 2.5
  }

  function Fires(m: Measurement, prediction: real): Advice -> bool
  {
    a => Triggered(a, m, prediction)
  }

  /** `generate_recommendations`: every check that holds appends its advisory. */
  function Recommendations(m: Measurement, prediction: real): (r: seq<Advice>)
    ensures |r| <= 8
  {
    (if m.temperature > 32.0 then [HighTemperature] else []) +
    ((if m.rainfall < 180.0 then [LowRainfall] else []) +
    ((if m.soilPh < 6.0 then [AcidicSoil] else []) +
    ((if m.soilPh > 7.5 then [AlkalineSoil] else []) +
    ((if m.nitrogen < 70.0 then [LowNitrogen] else []) +
    ((if m.phosphorus < 35.0 then [LowPhosphorus] else []) +
    ((if m.potassium < 55.0 then [LowPotassium] else []) +
    (if prediction < 2.5 then [LowYield] else [])))))))
  }

  /** One check: the advisory is appended exactly when its threshold holds. */
  lemma FilterStep(a: Advice, rest: seq<Advice>, m: Measurement, prediction: real)
    ensures Filter([a] + rest, Fires(m, prediction)) ==
      (if Triggered(a, m, prediction) then [a] else []) + Filter(rest, Fires(m, prediction))
  {
    assert ([a] + rest)[1..] == rest;
  }

  /** The appends are the fixed check list filtered by the thresholds. */
  lemma RecommendationsAreFilteredChecks(m: Measurement, prediction: real)
    ensures Recommendations(m, prediction) == Filter(CheckOrder, Fires(m, prediction))
  {
    var keep := Fires(m, prediction);
    var s7 := [LowYield];
    var s6 := [LowPotassium] + s7;
    var s5 := [LowPhosphorus] + s6;
    var s4 := [LowNitrogen] + s5;
    var s3 := [AlkalineSoil] + s4;
    var s2 := [AcidicSoil] + s3;
    var s1 := [LowRainfall] + s2;
    var s0 := [HighTemperature] + s1;
    assert s0 == CheckOrder;
    FilterStep(LowYield, [], m, prediction);
    assert [LowYield] + [] == s7;
    FilterStep(LowPotassium, s7, m, prediction);
    FilterStep(LowPhosphorus, s6, m, prediction);
    FilterStep(LowNitrogen, s5, m, prediction);
    FilterStep(AlkalineSoil, s4, m, prediction);
    FilterStep(AcidicSoil, s3, m, prediction);
    FilterStep(LowRainfall, s2, m, prediction);
    FilterStep(HighTemperature, s1, m, prediction);
  }

  /** Every advisory has its check in the list. */
  lemma EveryAdviceChecked()
    ensures forall a :: a in CheckOrder
  {
    forall a ensures a in CheckOrder {
      match a
      case HighTemperature => assert CheckOrder[0] == a;
      case LowRainfall => assert CheckOrder[1] == a;
      case AcidicSoil => assert CheckOrder[2] == a;
      case AlkalineSoil => assert CheckOrder[3] == a;
      case LowNitrogen => assert CheckOrder[4] == a;
      case LowPhosphorus => assert CheckOrder[5] == a;
      case LowPotassium => assert CheckOrder[6] == a;
      case LowYield => assert CheckOrder[7] == a;
    }
  }

  /**
   * What the advisory list promises: at most eight entries, an advisory is
   * present exactly when its threshold holds, and the entries keep the order
   * of the checks.
   */
  lemma RecommendationsSpec(m: Measurement, prediction: real)
    ensures |Recommendations(m, prediction)| <= |CheckOrder| == 8
    ensures forall a :: a in Recommendations(m, prediction) <==> Triggered(a, m, prediction)
    ensures IsSubsequence(Recommendations(m, prediction), CheckOrder)
  {
    RecommendationsAreFilteredChecks(m, prediction);
    FilterMembers(CheckOrder, Fires(m, prediction));
    FilterIsSubsequence(CheckOrder, Fires(m, prediction));
    EveryAdviceChecked();
  }

  /** The acidic and the alkaline advisory exclude each other. */
  lemma NeverAcidicAndAlkaline(m: Measurement, prediction: real)
    ensures !(AcidicSoil in Recommendations(m, prediction) && AlkalineSoil in Recommendations(m, prediction))
  {
    RecommendationsSpec(m, prediction);
  }

  /** The advisories rendered through an endpoint's text table, one text per advisory, in the same order. */
  function Texts(advice: seq<Advice>, text: Advice -> string): (r: seq<string>)
    ensures |r| == |advice|
    ensures forall i :: 0 <= i < |advice| ==> r[i] == text(advice[i])
  {
    seq(|advice|, i requires 0 <= i < |advice| => text(advice[i]))
  }

  /** The three risk tiers, in rising severity. */
  datatype Risk = Green | Yellow | Red

  function Severity(r: Risk): nat
  {
    match r
    case Green => 0
    case Yellow => 1
    case Red => 2
  }

  /** `get_risk_level` / `calculate_risk_level`: the first matching rule wins. */
  function RiskLevel(prediction: real, advisories: nat): (r: Risk)
    ensures r == Green <==> prediction >= 2.8 && advisories <= 1
    ensures r == Red <==> prediction < 2.0 || advisories >= 3
  {
    if prediction < 2.0 || advisories >= 3 then Red
    else if prediction < 2.8 || advisories >= 2 then Yellow
    else Green
  }

  /** Each tier, characterised on its own; Green needs 2.8 and at most one advisory. */
  lemma RiskTiers(prediction: real, advisories: nat)
    ensures RiskLevel(prediction, advisories) == Red <==> prediction < 2.0 || advisories >= 3
    ensures RiskLevel(prediction, advisories) == Yellow <==>
      !(prediction < 2.0 || advisories >= 3) && (prediction < 2.8 || advisories >= 2)
    ensures RiskLevel(prediction, advisories) == Green <==> prediction >= 2.8 && advisories <= 1
  {
  }

  /** Lowering the prediction or adding advisories never lowers the severity. */
  lemma RiskMonotone(p1: real, p2: real, n1: nat, n2: nat)
    requires p1 <= p2 && n1 >= n2
    ensures Severity(RiskLevel(p1, n1)) >= Severity(RiskLevel(p2, n2))
  {
  }
}
