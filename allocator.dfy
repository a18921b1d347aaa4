/**
 * The lifestyle allocator: splits an income into Necessities, Wants and
 * Savings by the lifestyle's fractions and works out how much of the
 * Necessities allocation is left once fixed commitments are paid.
 */
module Allocator {
  import opened Wrappers
  import opened Config

  /**
   * A budget plan. For a non-positive income the engine's plan has no
   * Fixed Commitments entry at all, hence the Option.
   */
  datatype Budget = Budget(
    necessities: real,
    wants: real,
    savings: real,
    fixedCommitments: Option<real>,
    flexNecessities: real)

  /** The plan returned for a non-positive income: everything zero, no Fixed Commitments. */
  const EmptyBudget: Budget := Budget(0.0, 0.0, 0.0, None, 0.0)

  function CalculateLifestyleBudget(income: real, fixedCommitments: real, lifestyle: string): (b: Budget)
    // No plan without income.
    ensures income <= 0.0 ==> b == EmptyBudget
    // Each category is exactly its fraction of income; unknown lifestyles use the default rule.
    ensures income > 0.0 ==>
      var rule := if lifestyle in LifestyleRules then LifestyleRules[lifestyle]
                  else LifestyleRules[DefaultLifestyle];
      && b.necessities == income * rule.necessities
      && b.wants == income * rule.wants
      && b.savings == income * rule.savings
      && b.fixedCommitments == Some(fixedCommitments)
    // Flex Necessities is the smallest non-negative amount covering Necessities minus commitments.
    ensures b.flexNecessities >= 0.0
    ensures b.flexNecessities >= b.necessities - fixedCommitments || income <= 0.0
    ensures b.flexNecessities == 0.0 || b.flexNecessities == b.necessities - fixedCommitments
  {
    if income <= 0.0 then EmptyBudget
    else
      var rule := RuleFor(lifestyle);
      var necessitiesTotal := income * rule.necessities;
      var wantsTotal := income * rule.wants;
      var savingsTotal := income * rule.savings;
      var flex := necessitiesTotal - fixedCommitments;
      var flexNecessities := if flex < 0.0 then 0.0 else flex;
      Budget(necessitiesTotal, wantsTotal, savingsTotal, Some(fixedCommitments), flexNecessities)
  }

  /** An unknown lifestyle gets exactly the Working Professional budget. */
  lemma UnknownLifestyleFallsBack(income: real, fixedCommitments: real, lifestyle: string)
    requires lifestyle !in LifestyleRules
    ensures CalculateLifestyleBudget(income, fixedCommitments, lifestyle)
         == CalculateLifestyleBudget(income, fixedCommitments, DefaultLifestyle)
  {
  }

  /**
   * With the shipped rules a positive income is split completely and into
   * non-negative parts, and Wants and Savings each hold at least a tenth of it.
   */
  lemma {:induction false} AllocationSplitsIncome(income: real, fixedCommitments: real, lifestyle: string)
    requires income > 0.0
    ensures var b := CalculateLifestyleBudget(income, fixedCommitments, lifestyle);
      && b.necessities + b.wants + b.savings == income
      && b.necessities >= 0.0
      && b.wants >= 0.10 * income
      && b.savings >= 0.10 * income
  {
    RuleForCases(lifestyle);
  }

  /**
   * Commitments that fit in Necessities split it into fixed and flexible
   * parts; commitments beyond it leave nothing flexible.
   */
  lemma NecessitiesCoverCommitments(income: real, fixedCommitments: real, lifestyle: string)
    requires income > 0.0
    ensures var b := CalculateLifestyleBudget(income, fixedCommitments, lifestyle);
      && (fixedCommitments <= b.necessities ==> fixedCommitments + b.flexNecessities == b.necessities)
      && (fixedCommitments >= b.necessities ==> b.flexNecessities == 0.0)
  {
  }
}
