# fitpal-api calorie-plan feasibility engine, in Dafny

This project models the part of fitpal-api that decides whether a weight goal is healthy:

- the Mifflin–St Jeor basal metabolic rate (BMR) estimate;
- the nutrition thresholds;
- the request validators of the plan endpoint;
- the two response shapes;
- the feasibility decision tree.

The decision tree exists twice in the repository: once in the plan service (`generate_plan`, `_handle_loss`, `_handle_gain`) and once inlined in the endpoint handler in `app.py`. Both copies are modelled and proved equal up to wording.

Representation:

- Weights, heights and energies are `real`, and `math.floor` is `real.Floor`.
- Dates are integer day numbers, and the current day is a parameter. The endpoint reads the clock twice, once in the target-date validator (`models/plan_request.py:20`) and once in the handler (`app.py:31`), so `App.Endpoint` takes both days. An accepted body can therefore still get the horizon rejection when the day changes between the two reads.
- `abs`, ASCII `str.upper` and the decimal rendering of an `int` inside an f-string are written out in `Builtins`.

Modules follow the source files:

| module | file | what it holds |
|---|---|---|
| `NutritionConstants` | `nutrition_constants.dfy` | the five constants |
| `Bmr` | `bmr.dfy` | `calculate_bmr` |
| `PlanRequests` | `plan_request.dfy` | the request and its validators, composed as pydantic runs them on one body |
| `PlanResponses` | `plan_responses.dfy` | the `PlanResponse` union |
| `Messages` | `messages.dfy` | the rejection texts |
| `PlanService` | `plan_service.dfy` | the service copy of the decision tree |
| `App` | `app.dfy` | the endpoint copy and the endpoint itself (validation, then evaluation) |
| `Builtins` | `builtins.dfy` | the Python built-ins the core relies on |
| `Wrappers` | `wrappers.dfy` | `Option` and `Result` |

A rejection's `reason` and `user_message` are stored as the template they come from, plus the numbers interpolated into it and the copy whose wording is used (`Messages.Reason`, `Messages.UserMessage`). `Messages.ReasonText` and `Messages.UserMessageText` render each one character for character as the source's f-strings do. With this, the equivalence of the two copies can be stated as an equation between responses; the lemmas in `Messages` then show how the rendered texts differ.

The arithmetic follows the code. For the documented example body (80 kg, 180 cm, 30 years, "M"), the BMR is 1780, TDEE is 2136, and a 5 kg loss over 60 days is rejected for falling below the 1500 kcal minimum. For 60 kg, 165 cm, 25 years, "F", the BMR is 1345.25.

## Model

| member | source | states |
|---|---|---|
| NutritionConstants.ConstantsAreOrdered | constants/nutrition_constants.py:1-5 | The five constants have their values 7700, 1000, 500, 1500 and 1200. All are positive, the surplus limit is below the deficit limit, and the female minimum is below the male minimum. |
| Bmr.CalculateBmr | utils/calculate_bmr.py:1-5 | The two-branch Mifflin–St Jeor formula: +5 for exactly "M", −161 for every other value. It has no contract of its own; its properties are stated by Bmr.MaleFormula, Bmr.NonMaleFormula, Bmr.SexGap, Bmr.StrictlyMonotone and Bmr.ExampleBody. |
| Bmr.MaleFormula | utils/calculate_bmr.py:2-3 | For sex "M" the BMR is exactly 10w + 6.25h − 5a + 5. |
| Bmr.NonMaleFormula | utils/calculate_bmr.py:4-5 | For every sex other than "M", including "F" and unrecognised values, the BMR is 10w + 6.25h − 5a − 161, the same as for "F". |
| Bmr.SexGap | utils/calculate_bmr.py:3-5 | On identical inputs, the male BMR exceeds any other sex's BMR by exactly 166. |
| Bmr.StrictlyMonotone | utils/calculate_bmr.py:3-5 | In either branch the BMR strictly increases with weight and with height, and strictly decreases with age. |
| Bmr.ExampleBody | utils/calculate_bmr.py:3 | calculate_bmr(80, 180, 30, "M") is 1780. |
| Builtins.Abs | services/plan_service.py:27 | abs returns a non-negative number equal to x or to −x. |
| Builtins.UpperChar | models/plan_request.py:14 | A lower-case ASCII letter becomes its capital (32 code points lower), and every other character is kept. |
| Builtins.Upper | models/plan_request.py:14 | str.upper keeps the length and upper-cases each character in place. |
| Builtins.UpperIdempotent | models/plan_request.py:16 | Upper-casing twice is upper-casing once. |
| Builtins.UpperIsLetter | models/plan_request.py:14 | A string upper-cases to the single capital letter L exactly when it is L or its lower-case form. |
| Builtins.NatToDecimal | services/plan_service.py:40 | The rendering of a natural number is a non-empty run of digits, with no leading zero unless the number is 0. |
| Builtins.IntToDecimal | services/plan_service.py:40 | How an int is written in an f-string: a minus sign for a negative number, then the digits of its magnitude. Its properties are stated by Builtins.IntToDecimalSign, Builtins.IntToDecimalHasNoSpace, Builtins.IntToDecimalInjective and Builtins.DecimalExamples, and, through Builtins.NatToDecimal, by Builtins.DecimalRoundTrip. |
| Builtins.IntToDecimalSign | services/plan_service.py:40 | The rendering of an integer is non-empty and starts with '-' exactly when the integer is negative. |
| Builtins.DecimalRoundTrip | services/plan_service.py:40 | Reading back the digits of a rendered natural number gives the number. |
| Builtins.NatToDecimalInjective | services/plan_service.py:40 | Distinct natural numbers render differently. |
| Builtins.IntToDecimalInjective | services/plan_service.py:53 | Distinct integers, negative ones included, render differently. |
| Builtins.IntToDecimalHasNoSpace | services/plan_service.py:40 | A rendered integer never contains a space. |
| Builtins.RenderingsBeforeSpace | services/plan_service.py:40 | Two renderings, each followed by a text starting with a space, give equal strings only when the integers are equal. |
| Builtins.DecimalExamples | services/plan_service.py:53 | 0, 1494 and −42 render as "0", "1494" and "-42". |
| Messages.ReasonText | services/plan_service.py:18-72 | Renders every `reason` of both copies: the date reason (services/plan_service.py:18), the deficit reason (:40), the minimum reason (:53) and the surplus reason (:72, and app.py:96 for the endpoint's wording). How the rendered texts relate is stated by Messages.SurplusReasonSuffix and Messages.DeficitReasonDeterminesDeficit. |
| Messages.UserMessageText | app.py:35-107 | Renders every `user_message` of both copies: the date message, the deficit message, the minimum message and the rapid-gain message, in the service's wording (services/plan_service.py:20, 42-46, 55, 74) and the endpoint's (app.py:37, 58-63, 76-80, 102-107). How the two wordings relate is stated by Messages.DeficitMessageSuffix. |
| Messages.SurplusReasonSuffix | app.py:96 | The endpoint's surplus reason is the service's, with " (not recommended)" inserted before its final full stop. |
| Messages.DeficitMessageSuffix | app.py:58-63 | The endpoint's deficit message is the service's, followed by a space and the suggestion to extend the timeframe or adjust the goal. |
| Messages.DeficitReasonDeterminesDeficit | services/plan_service.py:40 | Two deficit rejections with the same reason text report the same deficit. |
| PlanResponses.PlanResponse.IsFeasible | models/plan_responses.py:9-25 | `PlanResponse` is the two-case union of the feasible shape (target calories, type, tdee, days, optional deficit, surplus and AI plan) and the rejected shape (reason, values, user message). IsFeasible is the `feasible` field, which is true for the feasible shape and false for the rejected one by their defaults. PlanService.GeneratePlan states its value through the gates. |
| PlanResponses.LossValues | services/plan_service.py:41 | The diagnostic values of a rejected loss have exactly the keys tdee, daily_deficit and type: the given tdee, the given deficit and "loss". |
| PlanResponses.GainValues | services/plan_service.py:73 | The diagnostic values of a rejected gain have exactly the keys tdee, daily_surplus and type: the given tdee, the given surplus and "gain". |
| PlanRequests.ValidSex | models/plan_request.py:12-16 | Accepts exactly "M", "m", "F" and "f", and returns the upper-cased value, which is "M" or "F". Otherwise it fails with "sex must be 'M' or 'F'". |
| PlanRequests.ValidSexIdempotent | models/plan_request.py:16 | Validating an accepted sex again accepts it and returns the same value. |
| PlanRequests.FutureDate | models/plan_request.py:18-22 | Rejects the date exactly when it is not strictly after today, with "target_date must be in the future". Otherwise it returns the date unchanged. |
| PlanRequests.ValidTargetWeight | models/plan_request.py:24-30 | Rejects exactly when the current weight is known and equal to the target weight. It accepts when the current weight is absent, and returns the value unchanged. |
| PlanRequests.Validate | models/plan_request.py:4-30 | A body is accepted exactly when all three checks pass, and the validated request differs from the raw one only in its upper-cased sex. Otherwise the error list is exactly the failing checks' messages, in field order: target weight, target date, sex. |
| PlanService.EnergyAccount | services/plan_service.py:23-28 | tdee is 1.2 × BMR and the weight change is target − current. The daily change is non-negative and, over the days, adds up to \|Δw\| × 7700. |
| PlanService.MinAllowed | services/plan_service.py:49 | The calorie floor is 1500 exactly for sex "M", and 1200 for every other value. |
| PlanService.HandleLoss | services/plan_service.py:35-65 | Feasible exactly when the un-floored deficit is at most 1000 and the un-floored target is at least the floor for the sex. The deficit and minimum rejections carry their reasons, their messages and the loss values. A feasible loss reports the floored numbers, deficit only, a target at least the floor, a deficit at most 1000, and a target within one kcal below tdee − deficit. |
| PlanService.HandleGain | services/plan_service.py:67-85 | Feasible exactly when the un-floored surplus is at most 500. The rejection carries the surplus reason, the rapid-gain message and the gain values. A feasible gain reports the floored numbers, surplus only, a surplus at most 500, and a target within one kcal below tdee + surplus. |
| PlanService.GeneratePlan | services/plan_service.py:13-33 | Every response is well shaped. A horizon of at most 0 days gives exactly the date rejection with empty values, and only that case has empty values. Otherwise the verdict is the loss gates for Δw < 0 and the gain gate for Δw ≥ 0, including Δw = 0. A feasible plan reports the horizon and the floored tdee, and its type is "loss" exactly for Δw < 0. |
| PlanService.FeasiblePlanCoversGoal | services/plan_service.py:26-28 | Eating a feasible plan's reported daily deficit or surplus for its days never overshoots the energy of the whole weight change, and misses it by less than one kcal per day. |
| PlanService.RateCovers | services/plan_service.py:28 | A daily rate floored from an exact even split of a goal covers the goal within one unit per day. |
| PlanService.ExampleBodyIsBelowMinimum | services/plan_service.py:48-56 | The example body losing 5 kg in 60 days is rejected with target 1494 below 1500, and values tdee 2136, deficit 641, type loss. |
| PlanService.ExampleBodyLossOverNinetyDays | services/plan_service.py:57-65 | The example body losing 5 kg in 90 days is feasible, with target 1708, tdee 2136 and deficit 427. |
| PlanService.FastLossExceedsDeficitLimit | services/plan_service.py:37-47 | The example body losing 10 kg in 30 days is rejected by the deficit limit, with deficit 2566. |
| PlanService.ModerateGainIsFeasible | services/plan_service.py:76-85 | 60 kg, 165 cm, 25 years, "F", gaining 3 kg in 90 days is feasible, with target 1870, tdee 1614 and surplus 256. |
| PlanService.TodayIsNotInTheFuture | services/plan_service.py:14-21 | A target date equal to today gives the date rejection, whatever the body. |
| App.GeneratePlan | app.py:30-46 | Every response is well shaped. A horizon of at most 0 days gives exactly the date rejection, and only that case has empty values. |
| App.DecideGoal | app.py:47-118 | Feasible exactly when the loss gates (Δw < 0) or the gain gate (Δw ≥ 0) pass. A feasible plan reports its days, the floored tdee, the type of its branch, deficit only with target floor(tdee − deficit) at least the minimum, or surplus only (at most 500) with target floor(tdee + surplus). A rejection carries the values of its branch. |
| App.AppAgreesWithService | app.py:30-118 | For every request and day, the endpoint's response is the service's response with its texts in the endpoint's wording. The verdict, the values, every number and the kind of rejection are the same. |
| App.LossDecisionsAgree | app.py:47-90 | On a loss, the endpoint's branch is the service's loss handler, reworded. |
| App.GainDecisionsAgree | app.py:91-118 | On a gain or no change, the endpoint's branch is the service's gain handler, reworded. |
| App.Endpoint | app.py:30-31 | Validation runs on the validator's day and evaluation on the handler's day. A body that fails validation is answered with exactly the validators' messages; a valid one with the well-shaped evaluation of the validated request. An accepted body gets the horizon rejection exactly when the handler's day has reached its target date, so never when both reads see the same day. A gain outcome implies a strictly larger target weight. |
| App.ValidatedRequestsAvoidDeadPaths | models/plan_request.py:12-30 | An accepted request's target date is at least one day after the validator's day, its weight change is non-zero, and its sex is exactly "M" or "F". Evaluated on a day no later than the validator's, neither copy produces the horizon rejection. On any day, a gain outcome of either copy means the target weight is larger. |
| App.AcceptedBeforeMidnightRejectedAfter | models/plan_request.py:20 | A body validated on the day before its target date and handled on the target date is accepted by validation, then answered with the horizon rejection. |

## Left out

- Floating point: the model computes in exact reals. Python rounds each step in IEEE-754 doubles: the weight subtraction, `bmr * 1.2`, the multiplication by 7700 and the division by the number of days. The model does not capture that rounding, which has two consequences.
  - A value on or very near a gate boundary can fall on the other side of the gate.
  - A floored output can differ by one from the model's on ordinary inputs, wherever the exact value is an integer and the double lands just below it. This affects `tdee`, `daily_deficit`, `daily_surplus`, `target_calories` and the numbers inside the reasons and messages. For example, 76.0 kg down to 75.7 kg over 3 days needs exactly 770 kcal a day, but in doubles it comes out as 769.99999999999…, which Python floors to 769.
  - Non-finite values have no counterpart in the model. A NaN or infinity in a float field, or an overflow from a huge weight or height (for example `current_weight` 1e308 with `target_weight` 1.0), makes `math.floor` raise. The endpoint then fails with a server error, while the model has no such path and always returns a response with finite numbers.
- `date.today()` is a parameter (the validator's day and the handler's day for `App.Endpoint`, one day for each copy of the decision tree), and dates are day numbers; calendar arithmetic and time zones are not modelled.
- Builtins.Upper: models `str.upper` on ASCII only. Non-ASCII case mappings, including ones that change the length, are left out.
- PlanRequests.Validate: does not model pydantic's type coercion and parsing errors, the "Value error, " prefix pydantic adds to each message, or the error-location structure of the 422 response; it models the messages, in field order.
- PlanRequests.ValidTargetWeight: the current weight is always known in `Validate`, because current_weight is declared first and a body whose current_weight fails to parse is not modelled. That is the case where `info.data` lacks it.
- The `feasible` field is the response's constructor: `PlanResponse.IsFeasible` is true exactly for the feasible shape. A caller overriding pydantic's default (for example `PlanResponseFeasible(feasible=False, …)`) is not modelled; neither copy of the decision tree does so.
- `AIPlan` keeps its shape, but its `dict` fields are flattened to maps from names to numbers or texts. Nested structures are not modelled; the decision tree never fills `ai_plan`.
- `services/ai_plan_service.py` and `config/llm_setup.py` are not part of this model: language-model calls, prompt templating and `.env` loading.
- The FastAPI app object, the route decorator and `response_model_exclude_none` serialisation (`app.py:16-28`) are transport plumbing and are not modelled. `App.Endpoint` stands for the request-to-response behaviour.
- App.GeneratePlan and App.DecideGoal: the endpoint's single handler is written as two functions, the horizon check with energy accounting and the branch on the sign of the weight change. Together they compute what the handler computes.
