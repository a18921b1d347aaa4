/**
 * The engine's static configuration: the lifestyle rules, the mood
 * modifiers and the assumed annual rates. All of it is read-only.
 */
module Config {

  /** The fractions of income a lifestyle assigns to each budget category. */
  datatype LifestyleRule = LifestyleRule(necessities: real, wants: real, savings: real)

  /** The lifestyle whose rule is used for any lifestyle not in the table. */
  const DefaultLifestyle: string := "Working Professional"

  const LifestyleRules: map<string, LifestyleRule> := map[
    "Student" := LifestyleRule(0.50, 0.35, 0.15),
    "Working Professional" := LifestyleRule(0.50, 0.30, 0.20),
    "Freelancer" := LifestyleRule(0.45, 0.25, 0.30),
    "Homemaker" := LifestyleRule(0.60, 0.25, 0.15)
  ]

  /** Signed fraction of income moved from Savings to Wants (negative: Wants to Savings). */
  const MoodModifiers: map<string, real> := map[
    "Disciplined" := -0.10,
    "Splurge" := 0.10,
    "Balanced" := 0.0
  ]

  const AnnualReturnRate: real := 0.07
  const AnnualInflationRate: real := 0.06

  /** The rule for a lifestyle, falling back to the default lifestyle's rule. */
  function RuleFor(lifestyle: string): (rule: LifestyleRule)
    ensures lifestyle in LifestyleRules ==> rule == LifestyleRules[lifestyle]
    ensures lifestyle !in LifestyleRules ==> rule == LifestyleRules[DefaultLifestyle]
    ensures rule in LifestyleRules.Values
  {
    if lifestyle in LifestyleRules then LifestyleRules[lifestyle] else LifestyleRules[DefaultLifestyle]
  }

  /** The modifier for a mood, 0.0 for a mood not in the table. */
  function ModifierFor(mood: string): (modifier: real)
    ensures mood in MoodModifiers ==> modifier == MoodModifiers[mood]
    ensures mood !in MoodModifiers ==> modifier == 0.0
    ensures -0.10 <= modifier <= 0.10
  {
    if mood in MoodModifiers then MoodModifiers[mood] else 0.0
  }

  /** Every rule the lookup can return is one of the four shipped rules. */
  lemma RuleForCases(lifestyle: string)
    ensures var rule := RuleFor(lifestyle);
      || rule == LifestyleRule(0.50, 0.35, 0.15)
      || rule == LifestyleRule(0.50, 0.30, 0.20)
      || rule == LifestyleRule(0.45, 0.25, 0.30)
      || rule == LifestyleRule(0.60, 0.25, 0.15)
  {
  }

  /**
   * The shipped rules are non-negative, sum to one, and leave enough in Wants
   * and in Savings for a mood shift of ten percent of income.
   */
  lemma ShippedRulesWellFormed(lifestyle: string)
    ensures var rule := RuleFor(lifestyle);
      && rule.necessities >= 0.0 && rule.wants >= 0.10 && rule.savings >= 0.10
      && rule.necessities + rule.wants + rule.savings == 1.0
  {
    RuleForCases(lifestyle);
  }

  /** Every modifier the lookup can return is one of the three shipped ones. */
  lemma ModifierForCases(mood: string)
    ensures var m := ModifierFor(mood); m == -0.10 || m == 0.10 || m == 0.0
  {
  }
}
