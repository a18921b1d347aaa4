/**
 * The financial scorer: the savings rate, a letter grade from inclusive
 * thresholds checked highest first, and progress towards an emergency fund
 * of three months of Necessities.
 */
module Scorer {

  datatype Grade = A | B | C | D | F

  datatype Score = Score(
    savingsRate: real,
    grade: Grade,
    emoji: string,
    comment: string,
    emergencyFundProgress: real)

  /** The grade thresholds, highest first: meeting i + 1 of them earns the grade of rank i + 1. */
  const GradeThresholds: seq<real> := [0.25, 0.20, 0.15, 0.10]

  /** Months of Necessities the emergency fund is meant to cover. */
  const EmergencyFundMonths: real := 3.0

  /** Position of a grade on the scale, F lowest. */
  function Rank(g: Grade): nat
  {
    match g
    case A => 4
    case B => 3
    case C => 2
    case D => 1
    case F => 0
  }

  /** How many of the thresholds the rate meets. */
  function ThresholdsMet(rate: real, thresholds: seq<real>): nat
  {
    if thresholds == [] then 0
    else (if rate >= thresholds[0] then 1 else 0) + ThresholdsMet(rate, thresholds[1..])
  }

  function SavingsRate(income: real, savings: real): (rate: real)
    ensures income <= 0.0 ==> rate == 0.0
    ensures income > 0.0 ==> rate * income == savings
  {
    if income > 0.0 then savings / income else 0.0
  }

  function GradeFor(rate: real): Grade
  {
    if rate >= 0.25 then A
    else if rate >= 0.20 then B
    else if rate >= 0.15 then C
    else if rate >= 0.10 then D
    else F
  }

  /** The emoji and the comment that come with each grade. */
  function GradeLabel(g: Grade): (string, string)
  {
    match g
    case A => ("\U{1F4AA}", "Excellent! Your savings rate is exceptional.")
    case B => ("\U{1F44D}", "Great job! You are on track with the recommended savings rate.")
    case C => ("\U{1F642}", "Good start! Aiming for 20% will accelerate your goals.")
    case D => ("\U{1F440}", "There's room for improvement. Try reallocating from 'Wants'.")
    case F => ("\U{1F4B8}", "Warning! Your current savings rate is critically low.")
  }

  function EmergencyFundProgress(savings: real, necessities: real): (progress: real)
    ensures progress <= 1.0
    ensures necessities <= 0.0 ==> progress == 0.0
    ensures savings >= 0.0 ==> progress >= 0.0
    // A fund already covering the goal is complete; otherwise progress is the covered fraction.
    ensures necessities > 0.0 && savings >= EmergencyFundMonths * necessities ==> progress == 1.0
    ensures necessities > 0.0 && savings < EmergencyFundMonths * necessities ==>
      progress * (EmergencyFundMonths * necessities) == savings
  {
    var goal := necessities * EmergencyFundMonths;
    var progress := if goal > 0.0 then savings / goal else 0.0;
    if progress < 1.0 then progress else 1.0
  }

  function CalculateFinancialScore(income: real, savings: real, necessities: real): (s: Score)
    ensures s.savingsRate == SavingsRate(income, savings)
    // The grade is the number of thresholds the rate meets.
    ensures Rank(s.grade) == ThresholdsMet(s.savingsRate, GradeThresholds)
    ensures (s.emoji, s.comment) == GradeLabel(s.grade)
    ensures income <= 0.0 ==> s.savingsRate == 0.0 && s.grade == F
    ensures s.emergencyFundProgress == EmergencyFundProgress(savings, necessities)
    ensures 0.0 <= s.emergencyFundProgress <= 1.0 || savings < 0.0
  {
    var savingsRate := SavingsRate(income, savings);
    var grade := GradeFor(savingsRate);
    GradeCountsThresholds(savingsRate);
    var (emoji, comment) := GradeLabel(grade);
    Score(savingsRate, grade, emoji, comment, EmergencyFundProgress(savings, necessities))
  }

  /** The highest-first chain gives the grade whose rank is the number of thresholds met. */
  lemma GradeCountsThresholds(rate: real)
    ensures Rank(GradeFor(rate)) == ThresholdsMet(rate, GradeThresholds)
  {
    var t0: seq<real> := [0.10];
    var t1: seq<real> := [0.15, 0.10];
    var t2: seq<real> := [0.20, 0.15, 0.10];
    assert t0[1..] == [];
    assert t1[1..] == t0;
    assert t2[1..] == t1;
    assert GradeThresholds[1..] == t2;
    assert ThresholdsMet(rate, t0) == (if rate >= 0.10 then 1 else 0);
    assert ThresholdsMet(rate, t1) == (if rate >= 0.15 then 1 else 0) + ThresholdsMet(rate, t0);
    assert ThresholdsMet(rate, t2) == (if rate >= 0.20 then 1 else 0) + ThresholdsMet(rate, t1);
  }

  /** Meeting thresholds is monotone in the rate. */
  lemma {:induction false} ThresholdsMetMonotone(r1: real, r2: real, thresholds: seq<real>)
    requires r1 <= r2
    ensures ThresholdsMet(r1, thresholds) <= ThresholdsMet(r2, thresholds)
  {
    if thresholds != [] { ThresholdsMetMonotone(r1, r2, thresholds[1..]); }
  }

  /** A higher savings rate never earns a lower grade. */
  lemma GradeMonotone(r1: real, r2: real)
    requires r1 <= r2
    ensures Rank(GradeFor(r1)) <= Rank(GradeFor(r2))
  {
    GradeCountsThresholds(r1);
    GradeCountsThresholds(r2);
    ThresholdsMetMonotone(r1, r2, GradeThresholds);
  }

  /** Thresholds are inclusive: a rate exactly on one gets the higher grade. */
  lemma GradeBoundaries()
    ensures GradeFor(0.25) == A && GradeFor(0.2499999) == B
    ensures GradeFor(0.20) == B && GradeFor(0.1999999) == C
    ensures GradeFor(0.15) == C && GradeFor(0.1499999) == D
    ensures GradeFor(0.10) == D && GradeFor(0.0999999) == F
  {
  }

  /** Example: 10000 saved of an income of 50000 is a rate of 0.20, grade B. */
  lemma WorkingProfessionalScore()
    ensures var s := CalculateFinancialScore(50000.0, 10000.0, 25000.0);
      s.savingsRate == 0.20 && s.grade == B
  {
  }
}
