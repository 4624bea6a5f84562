/**
 * The JSON body of a prediction request (app.py `/predict`, backend/app.py
 * `/api/predict`): a dictionary from field names to values, and the
 * required-field check both endpoints perform before predicting.
 */
module Request {
  import opened Common
  import opened Ordering
  import opened Advisory

  /** A JSON value, as far as the prediction code can tell: a number or anything else. */
  datatype Field = Number(value: real) | NonNumber

  type Payload = map<string, Field>

  /** Both endpoints require the same nine keys, in this order. */
  const RequiredFields: seq<string> :=
    ["crop_type", "region", "rainfall", "temperature", "soil_ph",
     "nitrogen", "phosphorus", "potassium", "sowing_date_offset"]

  /** The seven keys that must hold numbers for the prediction to go through. */
  const NumericFields: seq<string> :=
    ["rainfall", "temperature", "soil_ph", "nitrogen", "phosphorus", "potassium", "sowing_date_offset"]

  function Absent(payload: Payload): string -> bool
  {
    f => f !in payload
  }

  /** `[field for field in required_fields if field not in data]` */
  function MissingFields(payload: Payload): (missing: seq<string>)
    ensures forall f :: f in missing ==> f in RequiredFields && f !in payload
    ensures forall f :: f in RequiredFields && f !in payload ==> f in missing
  {
    FilterMembers(RequiredFields, Absent(payload));
    Filter(RequiredFields, Absent(payload))
  }

  /**
   * The missing list names exactly the required keys the payload lacks, in
   * required-field order, and is empty exactly when all nine are present.
   */
  lemma MissingFieldsSpec(payload: Payload)
    ensures forall f :: f in MissingFields(payload) <==> f in RequiredFields && f !in payload
    ensures IsSubsequence(MissingFields(payload), RequiredFields)
    ensures MissingFields(payload) == [] <==> forall f :: f in RequiredFields ==> f in payload
  {
    FilterMembers(RequiredFields, Absent(payload));
    FilterIsSubsequence(RequiredFields, Absent(payload));
    if MissingFields(payload) != [] {
      assert MissingFields(payload)[0] in MissingFields(payload);
    }
  }

  predicate IsNumber(payload: Payload, key: string)
  {
    key in payload && payload[key].Number?
  }

  /** The numeric fields as a measurement, or None when one of them is not a number. */
  function ReadMeasurement(payload: Payload): (r: Option<Measurement>)
    ensures r.Some? <==> forall k :: k in NumericFields ==> IsNumber(payload, k)
    ensures r.Some? ==>
      (IsNumber(payload, "rainfall") && r.value.rainfall == payload["rainfall"].value) &&
      (IsNumber(payload, "temperature") && r.value.temperature == payload["temperature"].value) &&
      (IsNumber(payload, "soil_ph") && r.value.soilPh == payload["soil_ph"].value) &&
      (IsNumber(payload, "nitrogen") && r.value.nitrogen == payload["nitrogen"].value) &&
      (IsNumber(payload, "phosphorus") && r.value.phosphorus == payload["phosphorus"].value) &&
      (IsNumber(payload, "potassium") && r.value.potassium == payload["potassium"].value) &&
      (IsNumber(payload, "sowing_date_offset") && r.value.sowingOffset == payload["sowing_date_offset"].value)
  {
    if forall k :: k in NumericFields ==> IsNumber(payload, k) then
      assert IsNumber(payload, NumericFields[0]) && IsNumber(payload, NumericFields[1])
        && IsNumber(payload, NumericFields[2]) && IsNumber(payload, NumericFields[3])
        && IsNumber(payload, NumericFields[4]) && IsNumber(payload, NumericFields[5])
        && IsNumber(payload, NumericFields[6]);
      Some(Measurement(
        payload["rainfall"].value, payload["temperature"].value, payload["soil_ph"].value,
        payload["nitrogen"].value, payload["phosphorus"].value, payload["potassium"].value,
        payload["sowing_date_offset"].value))
    else
      None
  }
}
