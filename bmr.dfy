/** Basal metabolic rate by the Mifflin–St Jeor equation. */
module Bmr {

  /** kcal/day at rest. The constant term is +5 for sex "M"; every other string, "F" or not,
      gets the female constant -161. */
  function CalculateBmr(weightKg: real, heightCm: real, ageYears: int, sex: string): real
  {
    if sex == "M" then
      10.0 * weightKg + 6.25 * heightCm - (5 * ageYears) as real + 5.0
    else
      10.0 * weightKg + 6.25 * heightCm - (5 * ageYears) as real - 161.0
  }

  lemma MaleFormula(weightKg: real, heightCm: real, ageYears: int)
    ensures CalculateBmr(weightKg, heightCm, ageYears, "M")
         == 10.0 * weightKg + 6.25 * heightCm - 5.0 * ageYears as real + 5.0
  {
  }

  /** Any string other than "M", including lower-case "m" and unrecognised tags, takes the female branch. */
  lemma NonMaleFormula(weightKg: real, heightCm: real, ageYears: int, sex: string)
    requires sex != "M"
    ensures CalculateBmr(weightKg, heightCm, ageYears, sex)
         == 10.0 * weightKg + 6.25 * heightCm - 5.0 * ageYears as real - 161.0
    ensures CalculateBmr(weightKg, heightCm, ageYears, sex) == CalculateBmr(weightKg, heightCm, ageYears, "F")
  {
  }

  /** For the same body, the male estimate is exactly 166 kcal above any other. */
  lemma SexGap(weightKg: real, heightCm: real, ageYears: int, sex: string)
    requires sex != "M"
    ensures CalculateBmr(weightKg, heightCm, ageYears, "M") - CalculateBmr(weightKg, heightCm, ageYears, sex) == 166.0
  {
  }

  /** Heavier, taller or younger gives a strictly larger estimate, in both branches. */
  lemma StrictlyMonotone(w1: real, w2: real, h1: real, h2: real, a1: int, a2: int, sex: string)
    requires w1 <= w2 && h1 <= h2 && a1 >= a2
    ensures CalculateBmr(w1, h1, a1, sex) <= CalculateBmr(w2, h2, a2, sex)
    ensures (w1 < w2 || h1 < h2 || a1 > a2) ==> CalculateBmr(w1, h1, a1, sex) < CalculateBmr(w2, h2, a2, sex)
  {
  }

  /** The documented example body: 80 kg, 180 cm, 30 years, male. */
  lemma ExampleBody()
    ensures CalculateBmr(80.0, 180.0, 30, "M") == 1780.0
  {
  }
}
