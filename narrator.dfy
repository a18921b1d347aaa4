/**
 * The narrator: an opening chosen by grade tier, followed by one piece of
 * advice chosen by the first rule that matches. The model records which
 * clauses were chosen and the numbers they quote, not the rendered text.
 */
module Narrator {
  import opened Allocator
  import opened Scorer

  /** The three openings, each quoting the lifestyle and the savings rate. */
  datatype Opening = StrongPosition | SolidFoundation | NeedsAttention

  /** The advice clauses, with the figure each one quotes. */
  datatype Advice =
    | BuildEmergencyFund
    | ReviewWants(wantsPercentage: real)
    | BoostSavings(shortfall: real)
    | KeepGoing

  datatype Narrative = Narrative(lifestyle: string, savingsRate: real, opening: Opening, advice: Advice)

  const FreelancerLifestyle: string := "Freelancer"
  /** Wants above this share of income trigger the advice to review them. */
  const WantsCeiling: real := 0.35
  /** The recommended savings rate. */
  const TargetSavingsRate: real := 0.20

  function WantsPercentage(wants: real, income: real): (pct: real)
    ensures income <= 0.0 ==> pct == 0.0
    ensures income > 0.0 ==> pct * income == wants
  {
    if income > 0.0 then wants / income else 0.0
  }

  function OpeningFor(g: Grade): Opening
  {
    if g == A || g == B then StrongPosition
    else if g == C then SolidFoundation
    else NeedsAttention
  }

  /** The first-match-wins advice chain. */
  function AdviceFor(lifestyle: string, score: Score, plan: Budget, income: real): Advice
  {
    var wantsPercentage := WantsPercentage(plan.wants, income);
    if lifestyle == FreelancerLifestyle && score.emergencyFundProgress < 1.0 then BuildEmergencyFund
    else if wantsPercentage > WantsCeiling then ReviewWants(wantsPercentage)
    else if score.savingsRate < TargetSavingsRate && !(score.grade == A || score.grade == B) then
      BoostSavings(income * TargetSavingsRate - plan.savings)
    else KeepGoing
  }

  function GenerateNarrativeInsights(lifestyle: string, score: Score, plan: Budget, income: real): (n: Narrative)
    ensures n.lifestyle == lifestyle && n.savingsRate == score.savingsRate
    // Opening by tier: A and B strong, C a foundation, D and F need attention.
    ensures n.opening == StrongPosition <==> score.grade in {A, B}
    ensures n.opening == SolidFoundation <==> score.grade == C
    ensures n.opening == NeedsAttention <==> score.grade in {D, F}
    // Advice: each rule applies exactly when it matches and no earlier rule did.
    ensures var freelancerRule := lifestyle == FreelancerLifestyle && score.emergencyFundProgress < 1.0;
      var wantsRule := WantsPercentage(plan.wants, income) > WantsCeiling;
      var savingsRule := score.savingsRate < TargetSavingsRate && score.grade !in {A, B};
      && (n.advice == BuildEmergencyFund <==> freelancerRule)
      && (n.advice.ReviewWants? <==> !freelancerRule && wantsRule)
      && (n.advice.BoostSavings? <==> !freelancerRule && !wantsRule && savingsRule)
      && (n.advice == KeepGoing <==> !freelancerRule && !wantsRule && !savingsRule)
    // The quoted figures: the Wants share of income, and the gap to the target savings.
    ensures n.advice.ReviewWants? ==> n.advice.wantsPercentage * income == plan.wants && income > 0.0
    ensures n.advice.BoostSavings? ==> plan.savings + n.advice.shortfall == TargetSavingsRate * income
  {
    Narrative(lifestyle, score.savingsRate, OpeningFor(score.grade), AdviceFor(lifestyle, score, plan, income))
  }

  /**
   * For a score computed from the plan, the grade test of the third rule
   * adds nothing to the rate test: the opening is strong exactly when the
   * rate meets the target, and the gap advice is given exactly when no
   * earlier rule matched and the rate is below target.
   */
  lemma NarrativeOfScoredPlan(lifestyle: string, plan: Budget, income: real)
    ensures var score := CalculateFinancialScore(income, plan.savings, plan.necessities);
      var n := GenerateNarrativeInsights(lifestyle, score, plan, income);
      && (n.opening == StrongPosition <==> score.savingsRate >= TargetSavingsRate)
      && (n.advice.BoostSavings? <==>
            !(lifestyle == FreelancerLifestyle && score.emergencyFundProgress < 1.0)
            && WantsPercentage(plan.wants, income) <= WantsCeiling
            && score.savingsRate < TargetSavingsRate)
  {
    var score := CalculateFinancialScore(income, plan.savings, plan.necessities);
    GradeCountsThresholds(score.savingsRate);
  }

  /** With a positive income, the gap quoted by the savings advice is a real shortfall. */
  lemma ShortfallPositive(lifestyle: string, score: Score, plan: Budget, income: real)
    requires income > 0.0
    requires score.savingsRate == SavingsRate(income, plan.savings)
    ensures var n := GenerateNarrativeInsights(lifestyle, score, plan, income);
      n.advice.BoostSavings? ==> n.advice.shortfall > 0.0
  {
    var rate := score.savingsRate;
    if rate < TargetSavingsRate {
      assert plan.savings == rate * income;
      assert (TargetSavingsRate - rate) * income > 0.0;
    }
  }

  /** A Freelancer short of a full emergency fund is always told to build it, whatever else holds. */
  lemma FreelancerAdvicePrecedes(score: Score, plan: Budget, income: real)
    requires score.emergencyFundProgress < 1.0
    ensures GenerateNarrativeInsights(FreelancerLifestyle, score, plan, income).advice == BuildEmergencyFund
  {
  }
}
