/**
 * The four inputs of the `calculateCredit` unit tests, worked through the
 * pipeline as written. Each lemma states the exact output.
 */
module Scenarios {
  import opened Types
  import opened FuzzySystem

  /**
   * Income 150 000, debt 3 000, good history: the high rule fires at 0.5 and the
   * low rule at 1 (`low` rises with income), so p = 130/3 and the amount is 3 250 000.
   */
  lemma HighIncomeGoodHistory()
    ensures CalculateCredit(CreditInput(150000.0, Good, 3000.0, 40.0)) == CreditOutput(43, 3250000)
  {
    var income := IncomeMembership(150000.0);
    var debtLoad := DebtLoadMembership(3000.0);
    var creditHistory := CreditHistoryMembership(Good);
    assert income == TermSet(1.0, 0.0, 0.5);
    assert debtLoad == TermSet(0.7, 0.0, 0.0);
    assert HighProbability(income, debtLoad, creditHistory) == 0.5;
    assert MediumProbability(income, debtLoad, creditHistory) == 0.0;
    assert LowProbability(income, debtLoad, creditHistory) == 1.0;
    var p := EvaluateRules(income, debtLoad, creditHistory);
    assert p == 130.0 / 3.0;
    assert RecommendedAmount(150000.0, p) == 3250000.0;
  }

  /**
   * Income 20 000, debt 30 000, poor history: only the low rule fires, so p = 20
   * and the amount is 200 000.
   */
  lemma LowIncomePoorHistory()
    ensures CalculateCredit(CreditInput(20000.0, Poor, 30000.0, 20.0)) == CreditOutput(20, 200000)
  {
    var income := IncomeMembership(20000.0);
    var debtLoad := DebtLoadMembership(30000.0);
    var creditHistory := CreditHistoryMembership(Poor);
    assert income == TermSet(0.0, 0.0, 0.0);
    assert debtLoad == TermSet(0.0, 0.0, 0.5);
    assert HighProbability(income, debtLoad, creditHistory) == 0.0;
    assert MediumProbability(income, debtLoad, creditHistory) == 0.0;
    assert LowProbability(income, debtLoad, creditHistory) == 1.0;
    var p := EvaluateRules(income, debtLoad, creditHistory);
    assert p == 20.0;
    assert RecommendedAmount(20000.0, p) == 200000.0;
  }

  /**
   * Income 80 000, debt 20 000, average history: the medium rule fires at 0.5 and
   * the low rule at 0.6, so p = 370/11 (about 33.6) and the amount is about 1 345 454.5.
   */
  lemma MediumIncomeAverageHistory()
    ensures CalculateCredit(CreditInput(80000.0, Average, 20000.0, 35.0)) == CreditOutput(34, 1345455)
  {
    var income := IncomeMembership(80000.0);
    var debtLoad := DebtLoadMembership(20000.0);
    var creditHistory := CreditHistoryMembership(Average);
    assert income == TermSet(0.6, 0.6, 0.0);
    assert debtLoad == TermSet(0.0, 0.5, 0.0);
    assert HighProbability(income, debtLoad, creditHistory) == 0.0;
    assert MediumProbability(income, debtLoad, creditHistory) == 0.5;
    assert LowProbability(income, debtLoad, creditHistory) == 0.6;
    var p := EvaluateRules(income, debtLoad, creditHistory);
    assert p == 370.0 / 11.0;
    assert RecommendedAmount(80000.0, p) == 14800000.0 / 11.0;
  }

  /** Income 0, debt 40 000, poor history: only the low rule fires, so p = 20 and the amount is 0. */
  lemma ZeroIncomeHighDebt()
    ensures CalculateCredit(CreditInput(0.0, Poor, 40000.0, 25.0)) == CreditOutput(20, 0)
  {
    var income := IncomeMembership(0.0);
    var debtLoad := DebtLoadMembership(40000.0);
    var creditHistory := CreditHistoryMembership(Poor);
    assert income == TermSet(0.0, 0.0, 0.0);
    assert debtLoad == TermSet(0.0, 0.0, 1.0);
    assert HighProbability(income, debtLoad, creditHistory) == 0.0;
    assert MediumProbability(income, debtLoad, creditHistory) == 0.0;
    assert LowProbability(income, debtLoad, creditHistory) == 1.0;
    assert EvaluateRules(income, debtLoad, creditHistory) == 20.0 / 1.0;
  }
}
