/** The texts of the rejections: each `reason` and `user_message` is kept as the template it comes
    from and the numbers interpolated into it; ReasonText and UserMessageText render them exactly as
    the f-strings do. The plan service and the endpoint word some messages differently. */
module Messages {
  import opened NutritionConstants
  import opened Builtins

  /** Which copy of the decision tree produced a text. */
  datatype Wording = ServiceWording | EndpointWording

  datatype Reason =
    | DateNotInFuture
    | DeficitOverLimit(deficit: int)
    | BelowMinimum(target: int, minimum: int)
    | SurplusOverLimit(surplus: int, wording: Wording)

  datatype UserMessage =
    | InvalidDate
    | UnhealthyDeficit(deficit: int, wording: Wording)
    | TooFewCalories(wording: Wording)
    | RapidGain(surplus: int, wording: Wording)

  /** The endpoint's wording of a reason; only the surplus reason is worded differently. */
  function EndpointReason(r: Reason): Reason
  {
    match r
    case SurplusOverLimit(surplus, _) => SurplusOverLimit(surplus, EndpointWording)
    case _ => r
  }

  /** The endpoint's wording of a user message; only the date message is shared. */
  function EndpointMessage(m: UserMessage): UserMessage
  {
    match m
    case InvalidDate => m
    case UnhealthyDeficit(deficit, _) => UnhealthyDeficit(deficit, EndpointWording)
    case TooFewCalories(_) => TooFewCalories(EndpointWording)
    case RapidGain(surplus, _) => RapidGain(surplus, EndpointWording)
  }

  const DeficitSuggestion: string := "I suggest extending the timeframe or adjusting your goal."

  function ReasonText(r: Reason): string
  {
    match r
    case DateNotInFuture => "The date must be in the future"
    case DeficitOverLimit(deficit) => DeficitReasonPrefix + (IntToDecimal(deficit) + DeficitReasonTail)
    case BelowMinimum(target, minimum) =>
      "Target calories (" + IntToDecimal(target) + ") are below the healthy minimum (" + IntToDecimal(minimum) + ")."
    case SurplusOverLimit(surplus, ServiceWording) => SurplusReasonHead(surplus) + "."
    case SurplusOverLimit(surplus, EndpointWording) => SurplusReasonHead(surplus) + " (not recommended)."
  }

  const DeficitReasonPrefix: string := "Required daily deficit ("
  const DeficitReasonTail: string :=
    " kcal) is greater than the safe limit of " + IntToDecimal(MaxSafeDailyDeficit) + " kcal."

  /** The part of the surplus reason both copies share. */
  function SurplusReasonHead(surplus: int): string
  {
    "Required daily surplus (" + IntToDecimal(surplus) + " kcal) is greater than the safe limit of "
    + IntToDecimal(MaxSafeDailySurplus) + " kcal"
  }

  function UserMessageText(m: UserMessage): string
  {
    match m
    case InvalidDate =>
      "Hello! Unfortunately, the date you selected is not valid because it must be a future date. Please try another date."
    case UnhealthyDeficit(deficit, ServiceWording) => DeficitMessageHead(deficit) + " kcal."
    case UnhealthyDeficit(deficit, EndpointWording) => DeficitMessageHead(deficit) + " kcal. " + DeficitSuggestion
    case TooFewCalories(ServiceWording) =>
      "The amount of calories is too low and could harm your health."
    case TooFewCalories(EndpointWording) =>
      "Hello! The amount of calories you would need to consume to reach your goal "
      + "is too low and could be harmful to your health. "
      + "Please consider a more realistic goal or consult a professional."
    case RapidGain(_, ServiceWording) =>
      "The plan you propose implies a very rapid weight gain."
    case RapidGain(surplus, EndpointWording) =>
      "Hello! The plan you propose implies a very rapid weight gain "
      + "with a daily calorie surplus of " + IntToDecimal(surplus) + " kcal, "
      + "which exceeds the recommended limit of " + IntToDecimal(MaxSafeDailySurplus) + " kcal. "
      + "Consider a longer timeframe or a more moderate goal for your health."
  }

  /** The part of the deficit message both copies share. */
  function DeficitMessageHead(deficit: int): string
  {
    "Hello! The plan you propose is not healthy because "
    + "it requires a daily calorie deficit of " + IntToDecimal(deficit) + " kcal, "
    + "which exceeds the recommended limit of " + IntToDecimal(MaxSafeDailyDeficit)
  }

  /** The endpoint's surplus reason is the service's with " (not recommended)" before the final full stop. */
  lemma SurplusReasonSuffix(surplus: int)
    ensures var s := ReasonText(SurplusOverLimit(surplus, ServiceWording));
            |s| > 0 && ReasonText(SurplusOverLimit(surplus, EndpointWording)) == s[..|s| - 1] + " (not recommended)."
  {
    var head := SurplusReasonHead(surplus);
    var s := head + ".";
    assert s[..|s| - 1] == head;
  }

  /** The endpoint's deficit message is the service's followed by a suggestion. */
  lemma DeficitMessageSuffix(deficit: int)
    ensures UserMessageText(UnhealthyDeficit(deficit, EndpointWording))
         == UserMessageText(UnhealthyDeficit(deficit, ServiceWording)) + " " + DeficitSuggestion
  {
    var head := DeficitMessageHead(deficit);
    assert head + " kcal. " == head + " kcal." + " ";
  }

  /** The text of a deficit rejection determines the deficit it reports. */
  lemma DeficitReasonDeterminesDeficit(a: int, b: int)
    requires ReasonText(DeficitOverLimit(a)) == ReasonText(DeficitOverLimit(b))
    ensures a == b
  {
    var p, t := DeficitReasonPrefix, DeficitReasonTail;
    assert t[0] == ' ';
    assert (p + (IntToDecimal(a) + t))[|p|..] == IntToDecimal(a) + t;
    assert (p + (IntToDecimal(b) + t))[|p|..] == IntToDecimal(b) + t;
    RenderingsBeforeSpace(a, b, t, t);
  }
}
