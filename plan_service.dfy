/** The feasibility decision tree of the plan service: horizon check, energy accounting, then the
    loss gates (deficit limit and calorie floor) or the gain gate (surplus limit). */
module PlanService {
  import opened Wrappers
  import opened NutritionConstants
  import opened Messages
  import opened PlanResponses
  import opened PlanRequests
  import opened Builtins
  import Bmr

  /** Whole days from `today` to the target date. */
  function Days(req: PlanRequest, today: int): int
  {
    req.targetDate - today
  }

  /** The quantities computed once the horizon is known to be positive. */
  datatype Energy = Energy(bmr: real, tdee: real, weightChange: real, dailyChange: real)

  /** Energy accounting: expenditure at a fixed light-activity multiplier of 1.2, and the total
      energy of the weight change spread evenly over the days left. */
  function EnergyAccount(req: PlanRequest, days: int): (e: Energy)
    requires days > 0
    ensures e.bmr == Bmr.CalculateBmr(req.currentWeight, req.height, req.age, req.sex)
    ensures e.tdee == 1.2 * e.bmr
    ensures e.weightChange == req.targetWeight - req.currentWeight
    ensures e.dailyChange >= 0.0
    ensures e.dailyChange * days as real == Abs(e.weightChange) * KcalPerKg as real
  {
    var bmr := Bmr.CalculateBmr(req.currentWeight, req.height, req.age, req.sex);
    var tdee := bmr * 1.2;
    var weightChange := req.targetWeight - req.currentWeight;
    var totalKcal := Abs(weightChange) * KcalPerKg as real;
    var dailyChange := totalKcal / (days as real);
    Energy(bmr, tdee, weightChange, dailyChange)
  }

  /** The calorie floor: the male minimum for exactly "M", the female minimum for anything else. */
  function MinAllowed(sex: string): (m: int)
    ensures m == MinCaloriesMale <==> sex == "M"
    ensures m == MinCaloriesMale || m == MinCaloriesFemale
  {
    if sex == "M" then MinCaloriesMale else MinCaloriesFemale
  }

  /** The loss branch. Both gates compare the precise values; only the reported numbers are floored. */
  function HandleLoss(dailyChange: real, tdee: real, days: int, sex: string): (r: PlanResponse)
    ensures r.Feasible? <==> Abs(dailyChange) <= MaxSafeDailyDeficit as real
                             && tdee - Abs(dailyChange) >= MinAllowed(sex) as real
    ensures Abs(dailyChange) > MaxSafeDailyDeficit as real ==>
              r.NotFeasible? && r.reason == DeficitOverLimit(Abs(dailyChange).Floor)
              && r.userMessage == UnhealthyDeficit(Abs(dailyChange).Floor, ServiceWording)
    ensures Abs(dailyChange) <= MaxSafeDailyDeficit as real && tdee - Abs(dailyChange) < MinAllowed(sex) as real ==>
              r.NotFeasible? && r.reason == BelowMinimum((tdee - Abs(dailyChange)).Floor, MinAllowed(sex))
              && r.userMessage == TooFewCalories(ServiceWording)
    ensures r.NotFeasible? ==> r.values == LossValues(tdee.Floor, Abs(dailyChange).Floor)
    ensures r.Feasible? ==> r.kind == "loss" && r.tdee == tdee.Floor && r.days == days && r.aiPlan.None?
                            && r.dailyDeficit == Some(Abs(dailyChange).Floor) && r.dailySurplus.None?
    ensures r.Feasible? ==> r.targetCalories >= MinAllowed(sex) && r.dailyDeficit.value <= MaxSafeDailyDeficit
    ensures r.Feasible? ==> r.targetCalories as real <= tdee - Abs(dailyChange) < r.targetCalories as real + 1.0
  {
    var dailyDeficit := Abs(dailyChange);
    if dailyDeficit > MaxSafeDailyDeficit as real then
      NotFeasible(DeficitOverLimit(dailyDeficit.Floor), LossValues(tdee.Floor, dailyDeficit.Floor),
                  UnhealthyDeficit(dailyDeficit.Floor, ServiceWording))
    else
      var targetCalories := tdee - dailyDeficit;
      var minAllowed := MinAllowed(sex);
      if targetCalories < minAllowed as real then
        NotFeasible(BelowMinimum(targetCalories.Floor, minAllowed), LossValues(tdee.Floor, dailyDeficit.Floor),
                    TooFewCalories(ServiceWording))
      else
        Feasible(targetCalories.Floor, "loss", tdee.Floor, days, Some(dailyDeficit.Floor), None, None)
  }

  /** The gain branch, which also receives a zero weight change. */
  function HandleGain(dailyChange: real, tdee: real, days: int): (r: PlanResponse)
    ensures r.Feasible? <==> dailyChange <= MaxSafeDailySurplus as real
    ensures r.NotFeasible? ==> r.reason == SurplusOverLimit(dailyChange.Floor, ServiceWording)
                               && r.userMessage == RapidGain(dailyChange.Floor, ServiceWording)
                               && r.values == GainValues(tdee.Floor, dailyChange.Floor)
    ensures r.Feasible? ==> r.kind == "gain" && r.tdee == tdee.Floor && r.days == days && r.aiPlan.None?
                            && r.dailySurplus == Some(dailyChange.Floor) && r.dailyDeficit.None?
    ensures r.Feasible? ==> r.dailySurplus.value <= MaxSafeDailySurplus
    ensures r.Feasible? ==> r.targetCalories as real <= tdee + dailyChange < r.targetCalories as real + 1.0
  {
    var dailySurplus := dailyChange;
    if dailySurplus > MaxSafeDailySurplus as real then
      NotFeasible(SurplusOverLimit(dailySurplus.Floor, ServiceWording), GainValues(tdee.Floor, dailySurplus.Floor),
                  RapidGain(dailySurplus.Floor, ServiceWording))
    else
      var targetCalories := tdee + dailySurplus;
      Feasible(targetCalories.Floor, "gain", tdee.Floor, days, None, Some(dailySurplus.Floor), None)
  }

  /** Evaluates a request on the day `today`. */
  function GeneratePlan(req: PlanRequest, today: int): (r: PlanResponse)
    ensures WellShaped(r)
    ensures Days(req, today) <= 0 ==> r == NotFeasible(DateNotInFuture, map[], InvalidDate)
    ensures (r.NotFeasible? && r.values == map[]) <==> Days(req, today) <= 0
    ensures Days(req, today) > 0 ==>
              var e := EnergyAccount(req, Days(req, today));
              && (r.IsFeasible() <==> if e.weightChange < 0.0
                                   then e.dailyChange <= MaxSafeDailyDeficit as real
                                        && e.tdee - e.dailyChange >= MinAllowed(req.sex) as real
                                   else e.dailyChange <= MaxSafeDailySurplus as real)
              && (r.Feasible? ==> r.days == Days(req, today) && r.tdee == e.tdee.Floor
                                  && (r.kind == "loss" <==> e.weightChange < 0.0))
              && (r.NotFeasible? ==> r.values["type"] == Text(if e.weightChange < 0.0 then "loss" else "gain"))
  {
    var days := Days(req, today);
    if days <= 0 then
      NotFeasible(DateNotInFuture, map[], InvalidDate)
    else
      var e := EnergyAccount(req, days);
      if e.weightChange < 0.0 then HandleLoss(e.dailyChange, e.tdee, days, req.sex)
      else HandleGain(e.dailyChange, e.tdee, days)
  }

  /** Eating `rate` kcal a day for `days` days never overshoots `goal` and falls short of it by less
      than one kcal per day. */
  predicate Covers(rate: int, days: int, goal: real)
  {
    rate as real * days as real <= goal < (rate as real + 1.0) * days as real
  }

  /** The daily deficit (loss) or surplus (gain) a feasible plan reports covers the energy of the
      whole weight change over the planned days. */
  lemma FeasiblePlanCoversGoal(req: PlanRequest, today: int)
    requires GeneratePlan(req, today).Feasible?
    ensures var r := GeneratePlan(req, today);
            Covers(if r.kind == "loss" then r.dailyDeficit.value else r.dailySurplus.value, r.days,
                   Abs(req.targetWeight - req.currentWeight) * KcalPerKg as real)
  {
    var r := GeneratePlan(req, today);
    var days := Days(req, today);
    var e := EnergyAccount(req, days);
    var rate := if r.kind == "loss" then r.dailyDeficit.value else r.dailySurplus.value;
    if e.weightChange < 0.0 {
      assert r == HandleLoss(e.dailyChange, e.tdee, days, req.sex);
    } else {
      assert r == HandleGain(e.dailyChange, e.tdee, days);
    }
    assert rate == e.dailyChange.Floor && r.days == days;
    RateCovers(rate, e.dailyChange, days, Abs(req.targetWeight - req.currentWeight) * KcalPerKg as real);
  }

  /** A daily rate floored from the exact one that spreads `goal` over `days` covers `goal`. */
  lemma RateCovers(rate: int, dailyChange: real, days: int, goal: real)
    requires days > 0 && rate == dailyChange.Floor && dailyChange * days as real == goal
    ensures Covers(rate, days, goal)
  {
    var r := rate as real;
    var d := days as real;
    var below := dailyChange - r;
    var above := r + 1.0 - dailyChange;
    assert below * d >= 0.0 && above * d > 0.0;
    assert below * d == goal - r * d;
    assert above * d == (r + 1.0) * d - goal;
  }

  // ---------------------------------------------------------------- worked examples

  /** The documented example body (80 kg, 180 cm, 30 years, male, down to 75 kg) over 60 days: the
      5 kg loss needs about 641.67 kcal/day, leaving about 1494.33 kcal, under the 1500 kcal floor. */
  lemma ExampleBodyIsBelowMinimum(today: int)
    ensures GeneratePlan(PlanRequest(80.0, 180.0, 75.0, today + 60, 30, "M"), today)
         == NotFeasible(BelowMinimum(1494, 1500),
                        map["tdee" := Num(2136), "daily_deficit" := Num(641), "type" := Text("loss")],
                        TooFewCalories(ServiceWording))
  {
    var req := PlanRequest(80.0, 180.0, 75.0, today + 60, 30, "M");
    var e := EnergyAccount(req, 60);
    assert e.tdee == 2136.0;
    assert e.dailyChange == 38500.0 / 60.0;
    assert (e.tdee - e.dailyChange).Floor == 1494;
    assert e.dailyChange.Floor == 641;
    assert GeneratePlan(req, today) == HandleLoss(e.dailyChange, e.tdee, 60, "M");
    assert HandleLoss(e.dailyChange, e.tdee, 60, "M")
        == NotFeasible(BelowMinimum(1494, 1500), LossValues(2136, 641), TooFewCalories(ServiceWording));
  }

  /** The same body over 90 days leaves about 1708.22 kcal: a feasible loss. */
  lemma ExampleBodyLossOverNinetyDays(today: int)
    ensures GeneratePlan(PlanRequest(80.0, 180.0, 75.0, today + 90, 30, "M"), today)
         == Feasible(1708, "loss", 2136, 90, Some(427), None, None)
  {
    var req := PlanRequest(80.0, 180.0, 75.0, today + 90, 30, "M");
    var e := EnergyAccount(req, 90);
    assert e.tdee == 2136.0;
    assert e.dailyChange == 38500.0 / 90.0;
    assert (e.tdee - e.dailyChange).Floor == 1708;
    assert e.dailyChange.Floor == 427;
  }

  /** A 10 kg loss in 30 days needs about 2566.67 kcal/day and is stopped by the deficit limit. */
  lemma FastLossExceedsDeficitLimit(today: int)
    ensures GeneratePlan(PlanRequest(80.0, 180.0, 70.0, today + 30, 30, "M"), today)
         == NotFeasible(DeficitOverLimit(2566),
                        map["tdee" := Num(2136), "daily_deficit" := Num(2566), "type" := Text("loss")],
                        UnhealthyDeficit(2566, ServiceWording))
  {
    var req := PlanRequest(80.0, 180.0, 70.0, today + 30, 30, "M");
    var e := EnergyAccount(req, 30);
    assert e.tdee == 2136.0;
    assert e.dailyChange == 77000.0 / 30.0;
    assert e.dailyChange.Floor == 2566;
    assert GeneratePlan(req, today) == HandleLoss(e.dailyChange, e.tdee, 30, "M");
    assert HandleLoss(e.dailyChange, e.tdee, 30, "M")
        == NotFeasible(DeficitOverLimit(2566), LossValues(2136, 2566), UnhealthyDeficit(2566, ServiceWording));
  }

  /** 60 kg, 165 cm, 25 years, female, up to 63 kg in 90 days: BMR 1345.25, TDEE 1614.3, a surplus of
      about 256.67 kcal/day, so a feasible gain at about 1870.97 kcal. */
  lemma ModerateGainIsFeasible(today: int)
    ensures GeneratePlan(PlanRequest(60.0, 165.0, 63.0, today + 90, 25, "F"), today)
         == Feasible(1870, "gain", 1614, 90, None, Some(256), None)
  {
    var req := PlanRequest(60.0, 165.0, 63.0, today + 90, 25, "F");
    var e := EnergyAccount(req, 90);
    assert e.bmr == 1345.25;
    assert e.tdee == 1614.3;
    assert e.dailyChange == 23100.0 / 90.0;
    assert (e.tdee + e.dailyChange).Floor == 1870;
    assert e.dailyChange.Floor == 256;
  }

  /** A target date equal to today is rejected by the horizon check, whatever the body. */
  lemma TodayIsNotInTheFuture(req: PlanRequest, today: int)
    requires req.targetDate == today
    ensures GeneratePlan(req, today) == NotFeasible(DateNotInFuture, map[], InvalidDate)
  {
  }
}
