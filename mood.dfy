/**
 * The mood adjuster and the plan generator. The mood moves a fraction of
 * income between Wants and Savings; a deficit left in either is then pushed
 * into the other in two ordered passes, Wants first.
 */
module MoodAdjuster {
  import opened Wrappers
  import opened Config
  import opened Allocator

  /** Applies a mood to a budget by the engine's sequential in-place updates. */
  method ApplyMood(budget: Budget, income: real, mood: string) returns (adjusted: Budget)
    // Only Wants and Savings change.
    ensures adjusted.necessities == budget.necessities
    ensures adjusted.fixedCommitments == budget.fixedCommitments
    ensures adjusted.flexNecessities == budget.flexNecessities
    // The shift and both clamps are zero-sum transfers between Wants and Savings.
    ensures adjusted.wants + adjusted.savings == budget.wants + budget.savings
    // Nothing is left negative unless the two together already were.
    ensures budget.wants + budget.savings >= 0.0 ==> adjusted.wants >= 0.0 && adjusted.savings >= 0.0
    // Outcome in closed form: the plain shift when both stay non-negative, else one field takes the total.
    ensures var shift := income * ModifierFor(mood);
      var wants, savings := budget.wants + shift, budget.savings - shift;
      if wants >= 0.0 && savings >= 0.0 then adjusted.wants == wants && adjusted.savings == savings
      else if wants < 0.0 && wants + savings >= 0.0 then adjusted.wants == 0.0 && adjusted.savings == wants + savings
      else adjusted.wants == wants + savings && adjusted.savings == 0.0
    // A neutral or unknown mood leaves a non-negative budget as it is.
    ensures (mood !in MoodModifiers || mood == "Balanced") && budget.wants >= 0.0 && budget.savings >= 0.0
      ==> adjusted == budget
    // Disciplined moves exactly a tenth of income from Wants to Savings when Wants can pay it.
    ensures mood == "Disciplined" && budget.wants >= 0.10 * income && budget.savings + 0.10 * income >= 0.0
      ==> adjusted.wants == budget.wants - 0.10 * income && adjusted.savings == budget.savings + 0.10 * income
    // Splurge moves exactly a tenth of income from Savings to Wants when Savings can pay it.
    ensures mood == "Splurge" && budget.savings >= 0.10 * income && budget.wants + 0.10 * income >= 0.0
      ==> adjusted.wants == budget.wants + 0.10 * income && adjusted.savings == budget.savings - 0.10 * income
  {
    var modifier := ModifierFor(mood);
    var shiftAmount := income * modifier;
    adjusted := budget.(wants := budget.wants + shiftAmount, savings := budget.savings - shiftAmount);
    if adjusted.wants < 0.0 {
      adjusted := adjusted.(savings := adjusted.savings + adjusted.wants);
      adjusted := adjusted.(wants := 0.0);
    }
    if adjusted.savings < 0.0 {
      adjusted := adjusted.(wants := adjusted.wants + adjusted.savings);
      adjusted := adjusted.(savings := 0.0);
    }
  }

  /** The lifestyle budget with the mood applied. */
  method GenerateBudgetPlan(income: real, fixedCommitments: real, lifestyle: string, mood: string)
    returns (plan: Budget)
    // Necessities, Fixed Commitments and Flex Necessities are those of the lifestyle budget.
    ensures var base := CalculateLifestyleBudget(income, fixedCommitments, lifestyle);
      plan.necessities == base.necessities && plan.fixedCommitments == base.fixedCommitments
      && plan.flexNecessities == base.flexNecessities
    // No plan without income.
    ensures income <= 0.0 ==> plan == EmptyBudget
    // With the shipped tables no clamp fires for a positive income: the shift is exactly the mood's.
    ensures income > 0.0 ==>
      var base := CalculateLifestyleBudget(income, fixedCommitments, lifestyle);
      var shift := income * ModifierFor(mood);
      plan.wants == base.wants + shift && plan.savings == base.savings - shift
    // Every category of the final plan is non-negative ...
    ensures plan.necessities >= 0.0 && plan.wants >= 0.0 && plan.savings >= 0.0 && plan.flexNecessities >= 0.0
    // ... and a positive income is still split completely.
    ensures income > 0.0 ==> plan.necessities + plan.wants + plan.savings == income
  {
    var budget := CalculateLifestyleBudget(income, fixedCommitments, lifestyle);
    if income > 0.0 {
      AllocationSplitsIncome(income, fixedCommitments, lifestyle);
      ModifierForCases(mood);
    }
    plan := ApplyMood(budget, income, mood);
  }

  /** Example: a Working Professional with a monthly income of 50000 and 15000 committed, Balanced and Disciplined. */
  method WorkingProfessionalScenarios() returns (balanced: Budget, disciplined: Budget)
    ensures balanced == Budget(25000.0, 15000.0, 10000.0, Some(15000.0), 10000.0)
    ensures disciplined == Budget(25000.0, 10000.0, 15000.0, Some(15000.0), 10000.0)
  {
    balanced := GenerateBudgetPlan(50000.0, 15000.0, "Working Professional", "Balanced");
    disciplined := GenerateBudgetPlan(50000.0, 15000.0, "Working Professional", "Disciplined");
  }
}
