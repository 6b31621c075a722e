/** The two response shapes of the plan endpoint and the tagged union over them. */
module PlanResponses {
  import opened Wrappers
  import opened Messages

  /** A value in a `dict` of the response: a number or a text. */
  datatype Value = Num(n: int) | Text(s: string)

  /** The narrative a language model may attach to a feasible plan. */
  datatype AIPlan = AIPlan(dietPlan: map<string, Value>, trainingPlan: map<string, Value>, explanation: string)

  /** `PlanResponse = Union[PlanResponseFeasible, PlanResponseNotFeasible]`. The `feasible` field of
      each shape is its discriminant: true for Feasible and false for NotFeasible. */
  datatype PlanResponse =
    | Feasible(targetCalories: int, kind: string, tdee: int, days: int,
               dailyDeficit: Option<int>, dailySurplus: Option<int>, aiPlan: Option<AIPlan>)
    | NotFeasible(reason: Reason, values: map<string, Value>, userMessage: UserMessage)
  {
    /** The value of the `feasible` field, by its default for each shape. */
    predicate IsFeasible()
    {
      Feasible?
    }
  }

  /** Diagnostic values reported when a loss is rejected. */
  function LossValues(tdee: int, dailyDeficit: int): (m: map<string, Value>)
    ensures m.Keys == {"tdee", "daily_deficit", "type"} && m["type"] == Text("loss")
    ensures m["tdee"] == Num(tdee) && m["daily_deficit"] == Num(dailyDeficit)
  {
    map["tdee" := Num(tdee), "daily_deficit" := Num(dailyDeficit), "type" := Text("loss")]
  }

  /** Diagnostic values reported when a gain is rejected. */
  function GainValues(tdee: int, dailySurplus: int): (m: map<string, Value>)
    ensures m.Keys == {"tdee", "daily_surplus", "type"} && m["type"] == Text("gain")
    ensures m["tdee"] == Num(tdee) && m["daily_surplus"] == Num(dailySurplus)
  {
    map["tdee" := Num(tdee), "daily_surplus" := Num(dailySurplus), "type" := Text("gain")]
  }

  /** The number stored under `key`, or 0 when there is none. */
  function NumberAt(values: map<string, Value>, key: string): int
  {
    if key in values && values[key].Num? then values[key].n else 0
  }

  /** What every response of the evaluator looks like: a feasible plan is of kind "loss" with only a
      deficit or of kind "gain" with only a surplus, covers a positive number of days and has no
      narrative yet; a rejection carries no values, the loss values or the gain values. */
  predicate WellShaped(r: PlanResponse)
  {
    match r
    case Feasible(_, kind, _, days, deficit, surplus, aiPlan) =>
      && days > 0
      && aiPlan.None?
      && ((kind == "loss" && deficit.Some? && surplus.None?) || (kind == "gain" && deficit.None? && surplus.Some?))
    case NotFeasible(_, values, _) =>
      || values == map[]
      || values == LossValues(NumberAt(values, "tdee"), NumberAt(values, "daily_deficit"))
      || values == GainValues(NumberAt(values, "tdee"), NumberAt(values, "daily_surplus"))
  }

  /** The same response with its texts in the endpoint's wording; a feasible plan has no texts. */
  function InEndpointWording(r: PlanResponse): PlanResponse
  {
    match r
    case Feasible(_, _, _, _, _, _, _) => r
    case NotFeasible(reason, values, userMessage) =>
      NotFeasible(EndpointReason(reason), values, EndpointMessage(userMessage))
  }
}
