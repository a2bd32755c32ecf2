# Fuzzy credit scorer, modelled in Dafny

This project models the fuzzy-inference credit scorer of the Credit-Calculator
client (`client/src/fuzzyLogic/`) and proves properties of it. The scorer has
two independent parts, and each is modelled as written:

- **The 192-rule engine** (`fuzzyRules.ts`, module `FuzzyRules` in
  `fuzzy_rules.dfy`).
  - `generateRules` builds one rule for every combination of income, debt-load,
    credit-history and age terms. Each rule's class and weight depend on an integer
    score. It is modelled as a method with the source's four nested loops and proved
    equal to the table function `RuleTable`.
  - `evaluateRules` first filters out the terms with zero membership.
  - It then folds every applicable rule into its output class: the minimum of the
    four memberships, times the rule's weight, kept by maximum per class.
  - Finally it defuzzifies with a weighted average over the anchors 10/30/50/80/95.
    The divisor is guarded with `|| 1`.
  - The fold is a method with the source's loop over the table. Its local
    `outputWeights` record is a `Strengths` value that the loop reassigns. The
    method is proved equal to the specification fold `Aggregate`.
- **The live pipeline** (`fuzzySystem.ts`, module `FuzzySystem` in
  `fuzzy_system.dfy`).
  - Clamped piecewise-linear memberships for income and debt load, with three
    terms each.
  - An indicator membership for credit history.
  - Three hand-written rules, with a weighted average over 90/50/20.
  - `calculateCredit`, which rounds the probability and computes
    `income × p/100 × 50`.
  - All of this code is expression-bodied, so it is modelled as pure functions.

`math.dfy` holds the pieces of JavaScript's `Math` that the scorer uses (`min`,
`max`, `round`) and a few arithmetic facts. `types.dfy` holds the `CreditInput`
and `CreditOutput` data contracts from `client/src/types/index.ts`.

Modelling choices:
- JavaScript `number` is modelled as an exact `real`.
- `Math.round(x)` is modelled as `(x + 0.5).Floor`. This rounds halves upward,
  as JavaScript does.
- The `x || 1` guard is modelled as `if x == 0.0 then 1.0 else x`.
- `Object.entries` of a membership record is modelled as the list of its
  (term, degree) pairs, in field order.

Facts about the code that the model keeps as written:
- The live pipeline uses three terms (low, medium, high) for income and for debt
  load.
- The recommended amount is `income × p/100 × 50`, with no age factor.
- `income.low` is a ramp that rises from 50 000 to 100 000, although its comment
  calls it "low income".
- `medium` income and `medium` debt never exceed 2/3.
- `calculateCredit` never reads `age`, and nothing calls the 192-rule
  `evaluateRules`.

Some consequences of the code as written, proved here:
- A `poor` history always gives an approval probability of exactly 20
  (`FuzzySystem.PoorHistoryApprovesTwenty`).
- Any income of 100 000 or more caps the approval probability at 55
  (`FuzzySystem.HighIncomeCapsApproval`).
- The four inputs of `fuzzySystem.test.ts` are worked out exactly in module
  `Scenarios` (`scenarios.dfy`). Against those outputs, these expectations hold:
  - the first case's amount > 70 000 (the amount is 3 250 000);
  - the third case's amount > 20 000;
  - the fourth case's amount of 0.
- These expectations fail for the code as written:
  - the first case's probability > 90 (it is 43);
  - the second case's probability < 20 (it is 20) and amount < 10 000 (it is 200 000);
  - the third case's probability between 40 and 60 (it is 34, from 370/11) and
    amount < 40 000 (it is 1 345 455);
  - the fourth case's probability < 15 (it is 20).

## Model

| member | source | states |
|---|---|---|
| `FuzzyRules.TotalScore` | client/src/fuzzyLogic/fuzzyRules.ts:26-31 | the sum of the four ordinal scores of any term combination lies in 0..10 |
| `FuzzyRules.GradeOfScore` | client/src/fuzzyLogic/fuzzyRules.ts:36-51 | for scores 0..10 the threshold chain gives veryHigh iff score ≥ 9, high iff 7–8, medium iff 4–6, low iff 2–3, veryLow iff ≤ 1, and the weight listed for that score (0.10, 0.15, 0.25, 0.30, 0.50, 0.55, 0.60, 0.80, 0.85, 0.90, 0.95) |
| `FuzzyRules.GradeMonotone` | client/src/fuzzyLogic/fuzzyRules.ts:36-51 | a higher score gets a strictly larger weight and an output class of at least the same rank, across the whole range 0..10 |
| `FuzzyRules.MakeRule` | client/src/fuzzyLogic/fuzzyRules.ts:26-60 | the rule pushed for a combination keeps its four terms and gets a weight in [0.10, 0.95] |
| `FuzzyRules.RuleTable` | client/src/fuzzyLogic/fuzzyRules.ts:69-70 | the shared rule table has exactly 4×4×3×4 = 192 entries |
| `FuzzyRules.GenerateRules` | client/src/fuzzyLogic/fuzzyRules.ts:15-67 | the four nested loops return exactly the table `RuleTable`, entry by entry, in loop order |
| `FuzzyRules.RuleTableAt` | client/src/fuzzyLogic/fuzzyRules.ts:22-60 | the entry at position 48·i + 12·d + 4·h + a is the rule built from the i-th income, d-th debt-load, h-th history and a-th age term |
| `FuzzyRules.RuleTableExtends` | client/src/fuzzyLogic/fuzzyRules.ts:53-60 | appending the rule of loop step (i, d, h, a) to the rules emitted before it gives the next prefix of the table |
| `FuzzyRules.RuleTableCovers` | client/src/fuzzyLogic/fuzzyRules.ts:22-60 | every (income, debtLoad, creditHistory, age) combination has its rule in the table, at the position the loop nesting gives it |
| `FuzzyRules.RuleTablePosition` | client/src/fuzzyLogic/fuzzyRules.ts:22-60 | each entry is the rule its own terms determine and sits at its combination's position |
| `FuzzyRules.RuleTableNoDuplicates` | client/src/fuzzyLogic/fuzzyRules.ts:22-25 | two different positions of the table hold different term combinations, so the 192 entries are 192 distinct combinations |
| `FuzzyRules.RuleTableGrades` | client/src/fuzzyLogic/fuzzyRules.ts:26-51 | every rule in the table is classed by the band of its total score, has that score's weight, and that weight lies in [0.10, 0.95], inside (0, 1) |
| `FuzzyRules.FuzzyRulesWeights` | client/src/fuzzyLogic/fuzzyRules.ts:36-51 | every rule of the shared table has a weight in [0.10, 0.95] |
| `FuzzyRules.ActiveKeys` | client/src/fuzzyLogic/fuzzyRules.ts:88-91 | `filter(v > 0).map(term)` keeps exactly the keys that have an entry with a positive value |
| `FuzzyRules.ActiveTerms` | client/src/fuzzyLogic/fuzzyRules.ts:88-89 | a term is in the active list iff its membership is positive (also used for age, line 91) |
| `FuzzyRules.ActiveCreditHistoryTerms` | client/src/fuzzyLogic/fuzzyRules.ts:90 | a credit-history tier is in the active list iff its membership is positive |
| `FuzzyRules.Strengths.Put` | client/src/fuzzyLogic/fuzzyRules.ts:108 | writing one class strength sets that class and leaves the other four unchanged |
| `FuzzyRules.Strength` | client/src/fuzzyLogic/fuzzyRules.ts:95-106 | the four-way `Math.min` of a rule's memberships is positive iff all four `includes` tests pass (`Fires`), and lies in [0, 1] when the memberships do |
| `FuzzyRules.Firing` | client/src/fuzzyLogic/fuzzyRules.ts:101-108 | `ruleStrength * rule.weight` is, for a positive weight, positive iff the rule applies, and with memberships in [0, 1] and a non-negative weight lies in [0, weight] |
| `FuzzyRules.Combine` | client/src/fuzzyLogic/fuzzyRules.ts:108 | after `outputWeights[o] = Math.max(outputWeights[o], …)` class o is at least its old value and at least the rule's firing and equal to one of them, and every other class is unchanged |
| `FuzzyRules.Step` | client/src/fuzzyLogic/fuzzyRules.ts:94-110 | one iteration never lowers a class strength, changes no class other than the rule's output, and leaves the record unchanged for a rule that does not apply |
| `FuzzyRules.Aggregate` | client/src/fuzzyLogic/fuzzyRules.ts:79-110 | the strengths after the loop has visited a prefix of the table are all ≥ 0 |
| `FuzzyRules.CombineIs` | client/src/fuzzyLogic/fuzzyRules.ts:101-108 | the loop body's `max(outputWeights[o], min(...) * weight)` is the fuzzy-OR step of the specification |
| `FuzzyRules.AggregateExtends` | client/src/fuzzyLogic/fuzzyRules.ts:94-110 | visiting one more rule folds exactly that rule into the strengths |
| `FuzzyRules.AggregateIsMax` | client/src/fuzzyLogic/fuzzyRules.ts:79-110 | each class strength is ≥ 0 and ≥ the firing strength of every applicable rule with that output, and is either 0 or equal to one of those firing strengths: it is their maximum, and 0 when no such rule exists |
| `FuzzyRules.AggregateNonNegative` | client/src/fuzzyLogic/fuzzyRules.ts:79-85 | starting every class at 0 and only taking maxima keeps every strength ≥ 0, whatever the memberships |
| `FuzzyRules.AggregateSkipsOnlySilentRules` | client/src/fuzzyLogic/fuzzyRules.ts:88-108 | when every weight is positive, skipping rules with a term of membership ≤ 0 gives the same strengths as folding every rule |
| `FuzzyRules.AggregateBounded` | client/src/fuzzyLogic/fuzzyRules.ts:101-108 | with memberships in [0, 1] and weights in (0, cap], every class strength lies in [0, cap] |
| `FuzzyRules.FuzzyRulesStrengthPositive` | client/src/fuzzyLogic/fuzzyRules.ts:79-110 | over the shared table, a class strength is positive iff some rule concluding that class has all four terms active |
| `FuzzyRules.FuzzyRulesStrengthBounded` | client/src/fuzzyLogic/fuzzyRules.ts:101-108 | over the shared table, memberships in [0, 1] give every class strength in [0, 0.95] |
| `FuzzyRules.DefuzzifyNone` | client/src/fuzzyLogic/fuzzyRules.ts:113-119 | all-zero strengths defuzzify to 0, because the divisor falls back to 1 |
| `FuzzyRules.Defuzzify` | client/src/fuzzyLogic/fuzzyRules.ts:113-119 | non-negative strengths defuzzify to 0 iff all are 0, and otherwise to a value in [10, 95] |
| `FuzzyRules.AnchorAverage` | client/src/fuzzyLogic/fuzzyRules.ts:113-119 | for non-negative strengths, the guarded average of 10/30/50/80/95 is 0 iff all five are 0, and lies in [10, 95] when their total is non-zero |
| `FuzzyRules.EvaluateRules` | client/src/fuzzyLogic/fuzzyRules.ts:73-122 | the returned strengths are the fold of the filtered loop over the table and also the unfiltered fold; the probability is their defuzzification; it is 0 iff every strength is 0, and otherwise it lies in [10, 95] |
| `Math.Min` | client/src/fuzzyLogic/fuzzySystem.ts:5-7 | `Math.min` of two numbers is at most each of them and equal to one of them |
| `Math.Max` | client/src/fuzzyLogic/fuzzySystem.ts:5-7 | `Math.max` of two numbers is at least each of them and equal to one of them |
| `Math.Min4` | client/src/fuzzyLogic/fuzzyRules.ts:101-106 | `Math.min` of four numbers is at most each of them and equal to one of them |
| `Math.Round` | client/src/fuzzyLogic/fuzzySystem.ts:58-59 | `Math.round` gives the integer r with x − 0.5 < r ≤ x + 0.5 |
| `FuzzySystem.Clamp` | client/src/fuzzyLogic/fuzzySystem.ts:5-7 | `max(0, min(1, x))` lies in [0, 1], is x inside [0, 1], is 0 below 0 and 1 above 1 |
| `FuzzySystem.IncomeMembership` | client/src/fuzzyLogic/fuzzySystem.ts:4-8 | all three degrees lie in [0, 1] for any income; `low` is 0 up to 50 000 and 1 from 100 000 on, as written; `medium` is 0 outside (50 000, 150 000) and never exceeds 2/3; `high` is 0 up to 100 000 and 1 from 200 000 on |
| `FuzzySystem.DebtLoadMembership` | client/src/fuzzyLogic/fuzzySystem.ts:11-15 | all three degrees lie in [0, 1] for any debt load; `low` is 1 at or below 0 and 0 from 10 000 on; `medium` is 0 outside (10 000, 30 000) and never exceeds 2/3; `high` is 0 up to 20 000 and 1 from 40 000 on |
| `FuzzySystem.CreditHistoryMembership` | client/src/fuzzyLogic/fuzzySystem.ts:18-22 | the declared tier has degree 1 and each of the other two tiers has degree 0 |
| `FuzzySystem.HighProbability` | client/src/fuzzyLogic/fuzzySystem.ts:34 | the high rule's strength is at most `income.high`, `debtLoad.low` and `creditHistory.good`, and equal to one of them |
| `FuzzySystem.MediumProbability` | client/src/fuzzyLogic/fuzzySystem.ts:35 | the medium rule's strength is at most `income.medium`, `debtLoad.medium` and `creditHistory.average`, and equal to one of them |
| `FuzzySystem.LowProbability` | client/src/fuzzyLogic/fuzzySystem.ts:36 | the low rule's strength is at least `income.low`, `debtLoad.high` and `creditHistory.poor`, and equal to one of them |
| `FuzzySystem.PoorHistoryForcesLowRule` | client/src/fuzzyLogic/fuzzySystem.ts:18-22 | with the other memberships in [0, 1], a poor history makes the low rule's strength exactly 1 (rule at line 36) |
| `FuzzySystem.WeightedAverageRange` | client/src/fuzzyLogic/fuzzySystem.ts:39-41 | for non-negative strengths, the guarded average of 90/50/20 is 0 iff all three strengths are 0, and otherwise lies in [20, 90] |
| `FuzzySystem.EvaluateRules` | client/src/fuzzyLogic/fuzzySystem.ts:25-44 | with memberships in [0, 1], the result is 0 iff the high, medium and low strengths are all 0, and otherwise lies in [20, 90] |
| `FuzzySystem.RecommendedAmount` | client/src/fuzzyLogic/fuzzySystem.ts:55 | the unrounded amount is 0 for zero income and non-negative for non-negative income and probability |
| `FuzzySystem.CalculateCredit` | client/src/fuzzyLogic/fuzzySystem.ts:46-61 | `approvalProbability` is the half-up rounding of the evaluated probability and an integer in [0, 90]; income 0 gives `recommendedAmount` 0; non-negative income gives `recommendedAmount` ≥ 0 |
| `FuzzySystem.CalculateCreditIgnoresAge` | client/src/fuzzyLogic/fuzzySystem.ts:46-61 | two inputs that differ only in `age` give equal outputs |
| `FuzzySystem.PoorHistoryApprovesTwenty` | client/src/fuzzyLogic/fuzzySystem.ts:34-43 | a declared poor history gives an approval probability of exactly 20, whatever income and debt load are |
| `FuzzySystem.HighIncomeCapsApproval` | client/src/fuzzyLogic/fuzzySystem.ts:4-8 | an income of 100 000 or more fully fires the low rule, because `low` rises with income, and caps the approval probability at 55 |
| `Scenarios.HighIncomeGoodHistory` | client/src/fuzzyLogic/fuzzySystem.test.ts:4-14 | income 150 000, debt 3 000, good history gives probability 43 and amount 3 250 000 |
| `Scenarios.LowIncomePoorHistory` | client/src/fuzzyLogic/fuzzySystem.test.ts:16-26 | income 20 000, debt 30 000, poor history gives probability 20 and amount 200 000 |
| `Scenarios.MediumIncomeAverageHistory` | client/src/fuzzyLogic/fuzzySystem.test.ts:28-40 | income 80 000, debt 20 000, average history gives probability 34 and amount 1 345 455 |
| `Scenarios.ZeroIncomeHighDebt` | client/src/fuzzyLogic/fuzzySystem.test.ts:42-52 | income 0, debt 40 000, poor history gives probability 20 and amount 0 |

## Left out

- IEEE-754 arithmetic is not modelled: numbers are exact reals. The model does
  not capture inexact multiples of 0.05 (for example `0.6 - 2 * 0.05` is not
  exactly 0.5 in floating point), `-0`, NaN or Infinity inputs, or JavaScript `||`
  truthiness beyond "0 becomes 1".
- The test runner's `expect` calls are not modelled. Module `Scenarios` states
  the exact outputs instead, and the prose above compares them with the
  expectations.
- Building the table once, when the module loads
  (`const fuzzyRules = generateRules()`), is seen only as a constant.
  `FuzzyRules` is the value that `GenerateRules` is proved to return.
- The order of the active-term lists only matters for `includes`. The model
  proves which terms they contain, not the order of the keys.
- Presentation components, the Redux store and theming are not part of this
  model: they hold no scoring logic.
- No age membership function exists in the source. The 192-rule `evaluateRules`
  takes the age memberships as a parameter, and the model does the same.
