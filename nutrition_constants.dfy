/** The fixed energy-density constant and safety thresholds of the plan evaluator. */
module NutritionConstants {

  /** kcal per kilogram of body weight. */
  const KcalPerKg: int := 7700
  /** Safe daily calorie deficit (about 0.9 kg of loss per week). */
  const MaxSafeDailyDeficit: int := 1000
  /** Safe daily calorie surplus (about 0.25 to 0.5 kg of gain per week). */
  const MaxSafeDailySurplus: int := 500
  /** Minimum recommended daily intake for males. */
  const MinCaloriesMale: int := 1500
  /** Minimum recommended daily intake for females. */
  const MinCaloriesFemale: int := 1200

  /** The five constants are positive, the surplus limit is tighter than the deficit limit,
      and the male floor is above the female floor. */
  lemma ConstantsAreOrdered()
    ensures KcalPerKg == 7700
    ensures MaxSafeDailyDeficit == 1000 && MaxSafeDailySurplus == 500
    ensures MinCaloriesMale == 1500 && MinCaloriesFemale == 1200
    ensures 0 < MaxSafeDailySurplus < MaxSafeDailyDeficit
    ensures 0 < MinCaloriesFemale < MinCaloriesMale
    ensures 0 < KcalPerKg
  {
  }
}
