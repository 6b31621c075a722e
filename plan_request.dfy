/** The request body of the plan endpoint and its three field validators. */
module PlanRequests {
  import opened Wrappers
  import Builtins

  /** Weights in kg, height in cm, the target date as a day number, age in years. */
  datatype PlanRequest = PlanRequest(currentWeight: real, height: real, targetWeight: real,
                                     targetDate: int, age: int, sex: string)

  const SexError: string := "sex must be 'M' or 'F'"
  const DateError: string := "target_date must be in the future"
  const WeightError: string := "target_weight cannot be equal to current_weight"

  /** Accepts "M", "m", "F" and "f", and normalises to upper case. */
  function ValidSex(v: string): (r: Result<string, string>)
    ensures r.Ok? <==> (v == "M" || v == "m" || v == "F" || v == "f")
    ensures r.Ok? ==> r.value == Builtins.Upper(v) && (r.value == "M" || r.value == "F")
    ensures r.Err? ==> r.error == SexError
  {
    Builtins.UpperIsLetter(v, 'M');
    Builtins.UpperIsLetter(v, 'F');
    var upper := Builtins.Upper(v);
    if upper != "M" && upper != "F" then Err(SexError) else Ok(upper)
  }

  /** Validating an already validated sex changes nothing. */
  lemma ValidSexIdempotent(v: string)
    requires ValidSex(v).Ok?
    ensures ValidSex(ValidSex(v).value) == ValidSex(v)
  {
    Builtins.UpperIdempotent(v);
  }

  /** The target date must lie strictly after `today`; it is kept as given. */
  function FutureDate(v: int, today: int): (r: Result<int, string>)
    ensures r.Ok? <==> v > today
    ensures r.Ok? ==> r.value == v
    ensures r.Err? ==> r.error == DateError
  {
    if v <= today then Err(DateError) else Ok(v)
  }

  /** The target weight must differ from the current weight, when that one is known. */
  function ValidTargetWeight(v: real, currentWeight: Option<real>): (r: Result<real, string>)
    ensures r.Err? <==> currentWeight == Some(v)
    ensures r.Ok? ==> r.value == v
    ensures r.Err? ==> r.error == WeightError
  {
    if currentWeight.Some? && v == currentWeight.value then Err(WeightError) else Ok(v)
  }

  function Errors<T>(r: Result<T, string>): seq<string>
  {
    if r.Err? then [r.error] else []
  }

  /** Runs the field validators in field order (target weight, target date, sex) and either builds
      the validated request or reports every failing field's message. The current weight was
      parsed before the target weight, so it is known to the target weight's check. */
  function Validate(raw: PlanRequest, today: int): (r: Result<PlanRequest, seq<string>>)
    ensures r.Ok? <==> (raw.targetWeight != raw.currentWeight && raw.targetDate > today
                        && (raw.sex == "M" || raw.sex == "m" || raw.sex == "F" || raw.sex == "f"))
    ensures r.Ok? ==> r.value == raw.(sex := Builtins.Upper(raw.sex))
    ensures r.Err? ==> r.error == (if raw.targetWeight == raw.currentWeight then [WeightError] else [])
                                 + (if raw.targetDate <= today then [DateError] else [])
                                 + (if ValidSex(raw.sex).Err? then [SexError] else [])
    ensures r.Err? ==> 1 <= |r.error| <= 3
    ensures r.Err? ==> (WeightError in r.error <==> raw.targetWeight == raw.currentWeight)
    ensures r.Err? ==> (DateError in r.error <==> raw.targetDate <= today)
    ensures r.Err? ==> (SexError in r.error <==> ValidSex(raw.sex).Err?)
  {
    var weight := ValidTargetWeight(raw.targetWeight, Some(raw.currentWeight));
    var date := FutureDate(raw.targetDate, today);
    var sex := ValidSex(raw.sex);
    if weight.Ok? && date.Ok? && sex.Ok? then
      Ok(raw.(targetWeight := weight.value, targetDate := date.value, sex := sex.value))
    else
      Err(Errors(weight) + Errors(date) + Errors(sex))
  }
}
