/** The plan endpoint: request validation followed by the endpoint's own copy of the decision tree,
    with its own message texts. The copy computes exactly what the plan service computes; only some
    texts differ. The endpoint's single handler is given here as GeneratePlan (horizon check and
    energy accounting) and DecideGoal (the branch on the sign of the weight change). */
module App {
  import opened Wrappers
  import opened NutritionConstants
  import opened Messages
  import opened PlanResponses
  import opened PlanRequests
  import opened Builtins
  import Bmr
  import PlanService

  /** The endpoint's decision tree on the day `today`: horizon check and energy accounting. */
  function GeneratePlan(req: PlanRequest, today: int): (r: PlanResponse)
    ensures WellShaped(r)
    ensures req.targetDate - today <= 0 ==> r == NotFeasible(DateNotInFuture, map[], InvalidDate)
    ensures req.targetDate - today <= 0 <==> (r.NotFeasible? && r.values == map[])
  {
    var days := req.targetDate - today;
    if days <= 0 then
      NotFeasible(DateNotInFuture, map[], InvalidDate)
    else
      var bmr := Bmr.CalculateBmr(req.currentWeight, req.height, req.age, req.sex);
      var tdee := bmr * 1.2;
      var weightChange := req.targetWeight - req.currentWeight;
      var totalKcal := Abs(weightChange) * KcalPerKg as real;
      var dailyChange := totalKcal / (days as real);
      DecideGoal(weightChange, dailyChange, tdee, days, req.sex)
  }

  /** The endpoint's branch on the sign of the weight change, with its loss gates and its gain gate.
      The gates compare the precise values; only the reported numbers are floored. */
  function DecideGoal(weightChange: real, dailyChange: real, tdee: real, days: int, sex: string): (r: PlanResponse)
    ensures r.Feasible? <==> if weightChange < 0.0
                             then Abs(dailyChange) <= MaxSafeDailyDeficit as real
                                  && tdee - Abs(dailyChange) >= PlanService.MinAllowed(sex) as real
                             else dailyChange <= MaxSafeDailySurplus as real
    ensures r.Feasible? ==> r.days == days && r.tdee == tdee.Floor && r.aiPlan.None?
                            && (r.kind == "loss" <==> weightChange < 0.0)
    ensures r.Feasible? && r.kind == "loss" ==>
              && r.dailyDeficit == Some(Abs(dailyChange).Floor) && r.dailySurplus.None?
              && r.targetCalories == (tdee - Abs(dailyChange)).Floor
              && r.targetCalories >= PlanService.MinAllowed(sex)
    ensures r.Feasible? && r.kind == "gain" ==>
              && r.dailySurplus == Some(dailyChange.Floor) && r.dailyDeficit.None?
              && r.targetCalories == (tdee + dailyChange).Floor
              && r.dailySurplus.value <= MaxSafeDailySurplus
    ensures r.NotFeasible? ==> r.values == if weightChange < 0.0 then LossValues(tdee.Floor, Abs(dailyChange).Floor)
                                           else GainValues(tdee.Floor, dailyChange.Floor)
    ensures days > 0 ==> WellShaped(r)
  {
    if weightChange < 0.0 then
      var dailyDeficit := Abs(dailyChange);
      if dailyDeficit > MaxSafeDailyDeficit as real then
        NotFeasible(DeficitOverLimit(dailyDeficit.Floor),
                    map["tdee" := Num(tdee.Floor), "daily_deficit" := Num(dailyDeficit.Floor), "type" := Text("loss")],
                    UnhealthyDeficit(dailyDeficit.Floor, EndpointWording))
      else
        var targetCalories := tdee - dailyDeficit;
        var minAllowed := if sex == "M" then MinCaloriesMale else MinCaloriesFemale;
        if targetCalories < minAllowed as real then
          NotFeasible(BelowMinimum(targetCalories.Floor, minAllowed),
                      map["tdee" := Num(tdee.Floor), "daily_deficit" := Num(dailyDeficit.Floor), "type" := Text("loss")],
                      TooFewCalories(EndpointWording))
        else
          Feasible(targetCalories.Floor, "loss", tdee.Floor, days, Some(dailyDeficit.Floor), None, None)
    else
      var dailySurplus := dailyChange;
      if dailySurplus > MaxSafeDailySurplus as real then
        NotFeasible(SurplusOverLimit(dailySurplus.Floor, EndpointWording),
                    map["tdee" := Num(tdee.Floor), "daily_surplus" := Num(dailySurplus.Floor), "type" := Text("gain")],
                    RapidGain(dailySurplus.Floor, EndpointWording))
      else
        var targetCalories := tdee + dailySurplus;
        Feasible(targetCalories.Floor, "gain", tdee.Floor, days, None, Some(dailySurplus.Floor), None)
  }

  /** The endpoint copy and the service copy give the same response up to wording: the same verdict,
      the same numbers, the same diagnostic values and the same kind of rejection for the same
      interpolated numbers; only the texts are the endpoint's. */
  lemma AppAgreesWithService(req: PlanRequest, today: int)
    ensures GeneratePlan(req, today) == InEndpointWording(PlanService.GeneratePlan(req, today))
  {
    var days := req.targetDate - today;
    if days > 0 {
      var e := PlanService.EnergyAccount(req, days);
      assert GeneratePlan(req, today) == DecideGoal(e.weightChange, e.dailyChange, e.tdee, days, req.sex);
      if e.weightChange < 0.0 {
        LossDecisionsAgree(e.weightChange, e.dailyChange, e.tdee, days, req.sex);
      } else {
        GainDecisionsAgree(e.weightChange, e.dailyChange, e.tdee, days, req.sex);
      }
    }
  }

  /** On a loss the endpoint's branch is the service's loss handler, reworded. */
  lemma LossDecisionsAgree(weightChange: real, dailyChange: real, tdee: real, days: int, sex: string)
    requires weightChange < 0.0
    ensures DecideGoal(weightChange, dailyChange, tdee, days, sex)
         == InEndpointWording(PlanService.HandleLoss(dailyChange, tdee, days, sex))
  {
  }

  /** On a gain (or no change) the endpoint's branch is the service's gain handler, reworded. */
  lemma GainDecisionsAgree(weightChange: real, dailyChange: real, tdee: real, days: int, sex: string)
    requires weightChange >= 0.0
    ensures DecideGoal(weightChange, dailyChange, tdee, days, sex)
         == InEndpointWording(PlanService.HandleGain(dailyChange, tdee, days))
  {
  }

  /** The endpoint. The program reads the clock twice: the target-date validator sees the day
      `validatedOn` and the handler sees the day `handledOn`. A request that fails validation is
      answered with the validators' messages (an HTTP 422 in the service); a valid one is evaluated
      on `handledOn`. An accepted body gets the horizon rejection exactly when the handler's day has
      reached its target date, which validation on an earlier day cannot rule out (a request
      validated just before midnight and handled just after it). A gain outcome always implies a
      strictly larger target weight. */
  function Endpoint(raw: PlanRequest, validatedOn: int, handledOn: int): (r: Result<PlanResponse, seq<string>>)
    ensures r.Err? <==> Validate(raw, validatedOn).Err?
    ensures r.Err? ==> r.error == Validate(raw, validatedOn).error
    ensures r.Ok? ==> WellShaped(r.value) && r.value == GeneratePlan(Validate(raw, validatedOn).value, handledOn)
    ensures r.Ok? ==> (r.value == NotFeasible(DateNotInFuture, map[], InvalidDate) <==> handledOn >= raw.targetDate)
    ensures r.Ok? && handledOn <= validatedOn && r.value.NotFeasible? ==> r.value.values != map[]
    ensures r.Ok? && IsGainOutcome(r.value) ==> raw.targetWeight > raw.currentWeight
  {
    match Validate(raw, validatedOn)
    case Err(errors) => Err(errors)
    case Ok(req) =>
      ValidatedRequestsAvoidDeadPaths(raw, validatedOn, handledOn);
      Ok(GeneratePlan(req, handledOn))
  }

  /** A feasible gain or a rejected gain. */
  predicate IsGainOutcome(r: PlanResponse)
  {
    (r.Feasible? && r.kind == "gain") || (r.NotFeasible? && "type" in r.values && r.values["type"] == Text("gain"))
  }

  /** A request the validators accept on `validatedOn` changes the weight and names the sex exactly "M"
      or "F", and its target date lies at least one day after `validatedOn`. Evaluated on a day no
      later than that, neither copy's horizon gate fires; on any day, a gain outcome only comes from
      a strictly positive change. */
  lemma ValidatedRequestsAvoidDeadPaths(raw: PlanRequest, validatedOn: int, handledOn: int)
    requires Validate(raw, validatedOn).Ok?
    ensures var req := Validate(raw, validatedOn).value;
            && req.targetDate - validatedOn >= 1
            && req.targetWeight - req.currentWeight != 0.0
            && (req.sex == "M" || req.sex == "F")
            && (handledOn <= validatedOn ==>
                  && (PlanService.GeneratePlan(req, handledOn).NotFeasible? ==> PlanService.GeneratePlan(req, handledOn).values != map[])
                  && (GeneratePlan(req, handledOn).NotFeasible? ==> GeneratePlan(req, handledOn).values != map[]))
            && (IsGainOutcome(PlanService.GeneratePlan(req, handledOn)) ==> req.targetWeight > req.currentWeight)
            && (IsGainOutcome(GeneratePlan(req, handledOn)) ==> req.targetWeight > req.currentWeight)
  {
    var req := Validate(raw, validatedOn).value;
    assert ValidSex(raw.sex).Ok?;
    AppAgreesWithService(req, handledOn);
  }

  /** A body validated on the day before its target date and handled on the target date itself
      passes validation and then gets the horizon rejection. */
  lemma AcceptedBeforeMidnightRejectedAfter(raw: PlanRequest, day: int)
    requires Validate(raw, day).Ok? && raw.targetDate == day + 1
    ensures Endpoint(raw, day, day + 1) == Ok(NotFeasible(DateNotInFuture, map[], InvalidDate))
  {
  }
}
