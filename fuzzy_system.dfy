/**
 * The live scoring pipeline behind `calculateCredit`: three-term membership
 * functions for income and debt load, an indicator for credit history, three
 * hand-written rules and a weighted average over the anchors 90, 50 and 20.
 */
module FuzzySystem {
  import opened Math
  import opened Types

  /** Degrees of membership in the terms low, medium and high. */
  datatype TermSet = TermSet(low: real, medium: real, high: real)

  /** Degrees of membership in the three credit-history tiers. */
  datatype HistorySet = HistorySet(poor: real, average: real, good: real)
  {
    /** `set[tier]` */
    function Degree(h: CreditHistory): real
    {
      match h
      case Poor => poor
      case Average => average
      case Good => good
    }
  }

  predicate TermSetInUnit(m: TermSet)
  {
    0.0 <= m.low <= 1.0 && 0.0 <= m.medium <= 1.0 && 0.0 <= m.high <= 1.0
  }

  predicate HistorySetInUnit(m: HistorySet)
  {
    0.0 <= m.poor <= 1.0 && 0.0 <= m.average <= 1.0 && 0.0 <= m.good <= 1.0
  }

  /** `Math.max(0, Math.min(1, x))` */
  function Clamp(x: real): (r: real)
    ensures 0.0 <= r <= 1.0
    ensures 0.0 <= x <= 1.0 ==> r == x
    ensures x <= 0.0 ==> r == 0.0
    ensures x >= 1.0 ==> r == 1.0
  {
    Max(0.0, Min(1.0, x))
  }

  /**
   * `incomeMembership`. As written, `low` is a ramp rising from 50 000 to
   * 100 000 (so high incomes are fully "low"), and `medium` peaks at 2/3.
   */
  function IncomeMembership(income: real): (m: TermSet)
    ensures TermSetInUnit(m)
    ensures income <= 50000.0 ==> m.low == 0.0
    ensures income >= 100000.0 ==> m.low == 1.0
    ensures income <= 50000.0 || income >= 150000.0 ==> m.medium == 0.0
    ensures m.medium <= 2.0 / 3.0
    ensures income <= 100000.0 ==> m.high == 0.0
    ensures income >= 200000.0 ==> m.high == 1.0
  {
    TermSet(
      Clamp((income - 50000.0) / 50000.0),
      Max(0.0, Min(Min(1.0, (income - 50000.0) / 50000.0), (150000.0 - income) / 100000.0)),
      Clamp((income - 100000.0) / 100000.0))
  }

  /** `debtLoadMembership`; `medium` peaks at 2/3, at a debt of 50 000 / 3. */
  function DebtLoadMembership(debtLoad: real): (m: TermSet)
    ensures TermSetInUnit(m)
    ensures debtLoad <= 0.0 ==> m.low == 1.0
    ensures debtLoad >= 10000.0 ==> m.low == 0.0
    ensures debtLoad <= 10000.0 || debtLoad >= 30000.0 ==> m.medium == 0.0
    ensures m.medium <= 2.0 / 3.0
    ensures debtLoad <= 20000.0 ==> m.high == 0.0
    ensures debtLoad >= 40000.0 ==> m.high == 1.0
  {
    TermSet(
      Clamp((10000.0 - debtLoad) / 10000.0),
      Max(0.0, Min(Min(1.0, (debtLoad - 10000.0) / 10000.0), (30000.0 - debtLoad) / 20000.0)),
      Clamp((debtLoad - 20000.0) / 20000.0))
  }

  /** `creditHistoryMembership`: degree 1 for the declared tier and 0 for the other two. */
  function CreditHistoryMembership(history: CreditHistory): (m: HistorySet)
    ensures m.Degree(history) == 1.0
    ensures forall h :: h != history ==> m.Degree(h) == 0.0
  {
    HistorySet(
      if history == Poor then 1.0 else 0.0,
      if history == Average then 1.0 else 0.0,
      if history == Good then 1.0 else 0.0)
  }

  /** Rule 1: high income AND low debt AND good history. */
  function HighProbability(income: TermSet, debtLoad: TermSet, creditHistory: HistorySet): (r: real)
    ensures r <= income.high && r <= debtLoad.low && r <= creditHistory.good
    ensures r == income.high || r == debtLoad.low || r == creditHistory.good
  {
    Min(Min(income.high, debtLoad.low), creditHistory.good)
  }

  /** Rule 2: medium income AND medium debt AND average history. */
  function MediumProbability(income: TermSet, debtLoad: TermSet, creditHistory: HistorySet): (r: real)
    ensures r <= income.medium && r <= debtLoad.medium && r <= creditHistory.average
    ensures r == income.medium || r == debtLoad.medium || r == creditHistory.average
  {
    Min(Min(income.medium, debtLoad.medium), creditHistory.average)
  }

  /** Rule 3: low income OR high debt OR poor history. */
  function LowProbability(income: TermSet, debtLoad: TermSet, creditHistory: HistorySet): (r: real)
    ensures r >= income.low && r >= debtLoad.high && r >= creditHistory.poor
    ensures r == income.low || r == debtLoad.high || r == creditHistory.poor
  {
    Max(Max(income.low, debtLoad.high), creditHistory.poor)
  }

  /**
   * The local `evaluateRules`: weighted average of 90, 50 and 20, where a zero
   * total divides by 1. With memberships in [0, 1] the result is 0 exactly when
   * all three rule strengths are 0, and otherwise lies in [20, 90].
   */
  function EvaluateRules(income: TermSet, debtLoad: TermSet, creditHistory: HistorySet): (p: real)
    ensures TermSetInUnit(income) && TermSetInUnit(debtLoad) && HistorySetInUnit(creditHistory) ==>
      && (p == 0.0 <==> && HighProbability(income, debtLoad, creditHistory) == 0.0
                        && MediumProbability(income, debtLoad, creditHistory) == 0.0
                        && LowProbability(income, debtLoad, creditHistory) == 0.0)
      && (p == 0.0 || 20.0 <= p <= 90.0)
  {
    var high := HighProbability(income, debtLoad, creditHistory);
    var medium := MediumProbability(income, debtLoad, creditHistory);
    var low := LowProbability(income, debtLoad, creditHistory);
    var total := high + medium + low;
    var num := high * 90.0 + medium * 50.0 + low * 20.0;
    WeightedAverageRange(high, medium, low, num, total);
    num / (if total == 0.0 then 1.0 else total)
  }

  /** The range of the three-anchor weighted average, for non-negative strengths. */
  lemma WeightedAverageRange(high: real, medium: real, low: real, num: real, total: real)
    requires total == high + medium + low && num == high * 90.0 + medium * 50.0 + low * 20.0
    ensures high >= 0.0 && medium >= 0.0 && low >= 0.0 ==>
      var p := num / (if total == 0.0 then 1.0 else total);
      && (p == 0.0 <==> high == 0.0 && medium == 0.0 && low == 0.0)
      && (p == 0.0 || 20.0 <= p <= 90.0)
  {
    if high >= 0.0 && medium >= 0.0 && low >= 0.0 && total != 0.0 {
      QuotientBounds(num, total, 20.0, 90.0);
    }
  }

  /** The amount formula `income * (probability / 100) * 50`, before rounding. */
  function RecommendedAmount(income: real, approvalProbability: real): (amount: real)
    ensures income == 0.0 ==> amount == 0.0
    ensures income >= 0.0 && approvalProbability >= 0.0 ==> amount >= 0.0
  {
    var amount := income * (approvalProbability / 100.0) * 50.0;
    assert income >= 0.0 && approvalProbability >= 0.0 ==> amount >= 0.0 by {
      if income >= 0.0 && approvalProbability >= 0.0 {
        NonNegativeProduct(income, approvalProbability / 100.0);
      }
    }
    amount
  }

  /** `calculateCredit`: fuzzify, evaluate, round the probability and derive the amount. Age is never read. */
  function CalculateCredit(input: CreditInput): (out: CreditOutput)
    ensures var p := EvaluateRules(IncomeMembership(input.income), DebtLoadMembership(input.debtLoad),
                                   CreditHistoryMembership(input.creditHistory));
      p - 0.5 < out.approvalProbability as real <= p + 0.5
    ensures 0 <= out.approvalProbability <= 90
    ensures input.income == 0.0 ==> out.recommendedAmount == 0
    ensures input.income >= 0.0 ==> out.recommendedAmount >= 0
  {
    var income := IncomeMembership(input.income);
    var debtLoad := DebtLoadMembership(input.debtLoad);
    var creditHistory := CreditHistoryMembership(input.creditHistory);
    var approvalProbability := EvaluateRules(income, debtLoad, creditHistory);
    var recommendedAmount := RecommendedAmount(input.income, approvalProbability);
    CreditOutput(Round(approvalProbability), Round(recommendedAmount))
  }

  /** Two inputs that differ only in age get the same result. */
  lemma CalculateCreditIgnoresAge(input: CreditInput, age: real)
    ensures CalculateCredit(input.(age := age)) == CalculateCredit(input)
  {
  }

  /** A poor history fires the low rule fully when the other memberships lie in [0, 1]. */
  lemma PoorHistoryForcesLowRule(income: TermSet, debtLoad: TermSet)
    requires TermSetInUnit(income) && TermSetInUnit(debtLoad)
    ensures LowProbability(income, debtLoad, CreditHistoryMembership(Poor)) == 1.0
  {
  }

  /** A declared poor history always yields an approval probability of exactly 20. */
  lemma PoorHistoryApprovesTwenty(input: CreditInput)
    requires input.creditHistory == Poor
    ensures CalculateCredit(input).approvalProbability == 20
  {
    var income := IncomeMembership(input.income);
    var debtLoad := DebtLoadMembership(input.debtLoad);
    var creditHistory := CreditHistoryMembership(Poor);
    assert HighProbability(income, debtLoad, creditHistory) == 0.0;
    assert MediumProbability(income, debtLoad, creditHistory) == 0.0;
    assert LowProbability(income, debtLoad, creditHistory) == 1.0;
    assert EvaluateRules(income, debtLoad, creditHistory) == 20.0 / 1.0;
  }

  /**
   * Because `low` rises with income, an income of 100 000 or more fires the low
   * rule fully and caps the approval probability at 55.
   */
  lemma HighIncomeCapsApproval(input: CreditInput)
    requires input.income >= 100000.0
    ensures CalculateCredit(input).approvalProbability <= 55
  {
    var income := IncomeMembership(input.income);
    var debtLoad := DebtLoadMembership(input.debtLoad);
    var creditHistory := CreditHistoryMembership(input.creditHistory);
    var high := HighProbability(income, debtLoad, creditHistory);
    var medium := MediumProbability(income, debtLoad, creditHistory);
    var low := LowProbability(income, debtLoad, creditHistory);
    assert low == 1.0;
    assert 0.0 <= high <= 1.0 && medium >= 0.0;
    var num := high * 90.0 + medium * 50.0 + low * 20.0;
    assert EvaluateRules(income, debtLoad, creditHistory) == num / (high + medium + low);
    QuotientBounds(num, high + medium + low, 0.0, 55.0);
  }
}
