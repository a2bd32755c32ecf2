/**
 * The 192-rule fuzzy inference engine: the rule table built from every
 * combination of input terms, rule evaluation (fuzzy AND as minimum, fuzzy OR
 * as maximum per output class) and defuzzification by a weighted average.
 */
module FuzzyRules {
  import opened Math
  import opened Types

  // ---------------------------------------------------------------------------
  // Data model
  // ---------------------------------------------------------------------------

  /** The terms of income, debt load and age: the keys of a `FuzzySet`. */
  datatype Term = VeryLow | Low | Medium | High

  /** The class a rule concludes. */
  datatype Output = VeryLow | Low | Medium | High | VeryHigh

  /** Degrees of membership of one crisp value in the four terms. */
  datatype FuzzySet = FuzzySet(veryLow: real, low: real, medium: real, high: real)
  {
    /** `set[term]` */
    function Degree(t: Term): real
    {
      match t
      case VeryLow => veryLow
      case Low => low
      case Medium => medium
      case High => high
    }

    /** `Object.entries(set)`: the (term, degree) pairs in declaration order. */
    function Entries(): seq<(Term, real)>
    {
      [(Term.VeryLow, veryLow), (Term.Low, low), (Term.Medium, medium), (Term.High, high)]
    }
  }

  /** Degrees of membership in the three credit-history tiers. */
  datatype CreditHistorySet = CreditHistorySet(poor: real, average: real, good: real)
  {
    /** `set[tier]` */
    function Degree(h: CreditHistory): real
    {
      match h
      case Poor => poor
      case Average => average
      case Good => good
    }

    /** `Object.entries(set)`: the (tier, degree) pairs in declaration order. */
    function Entries(): seq<(CreditHistory, real)>
    {
      [(Poor, poor), (Average, average), (Good, good)]
    }
  }

  /** One rule: four antecedent terms, the class it concludes and its weight. */
  datatype Rule = Rule(
    income: Term,
    debtLoad: Term,
    creditHistory: CreditHistory,
    age: Term,
    output: Output,
    weight: real)

  /** The four fuzzified inputs one evaluation works on. */
  datatype Memberships = Memberships(
    income: FuzzySet,
    debtLoad: FuzzySet,
    creditHistory: CreditHistorySet,
    age: FuzzySet)

  // ---------------------------------------------------------------------------
  // The rule table
  // ---------------------------------------------------------------------------

  /** The term lists the generator iterates over, in iteration order. */
  const IncomeTerms: seq<Term> := [Term.VeryLow, Term.Low, Term.Medium, Term.High]
  const DebtLoadTerms: seq<Term> := [Term.VeryLow, Term.Low, Term.Medium, Term.High]
  const CreditHistoryTerms: seq<CreditHistory> := [Poor, Average, Good]
  const AgeTerms: seq<Term> := [Term.VeryLow, Term.Low, Term.Medium, Term.High]

  /** Higher income is more favourable. */
  function IncomeScore(t: Term): int
  {
    match t
    case VeryLow => 0
    case Low => 1
    case Medium => 2
    case High => 3
  }

  /** Lower debt is more favourable, so the scale is inverted. */
  function DebtLoadScore(t: Term): int
  {
    match t
    case VeryLow => 3
    case Low => 2
    case Medium => 1
    case High => 0
  }

  function CreditHistoryScore(h: CreditHistory): int
  {
    match h
    case Poor => 0
    case Average => 1
    case Good => 2
  }

  /** Middle age scores best; both ends score less. */
  function AgeScore(t: Term): int
  {
    match t
    case VeryLow => 0
    case Low => 1
    case Medium => 2
    case High => 1
  }

  /** The sum of the four ordinal scores of a term combination. */
  function TotalScore(income: Term, debtLoad: Term, creditHistory: CreditHistory, age: Term): (s: int)
    ensures 0 <= s <= 10
  {
    IncomeScore(income) + DebtLoadScore(debtLoad) + CreditHistoryScore(creditHistory) + AgeScore(age)
  }

  /** The class and the weight a total score is given. */
  datatype Grade = Grade(output: Output, weight: real)

  /** The threshold chain mapping a total score to its class and weight. */
  function GradeOf(score: int): Grade
  {
    if score >= 9 then Grade(Output.VeryHigh, 0.95 - (10 - score) as real * 0.05)
    else if score >= 7 then Grade(Output.High, 0.85 - (8 - score) as real * 0.05)
    else if score >= 4 then Grade(Output.Medium, 0.6 - (6 - score) as real * 0.05)
    else if score >= 2 then Grade(Output.Low, 0.3 - (3 - score) as real * 0.05)
    else Grade(Output.VeryLow, 0.15 - (1 - score) as real * 0.05)
  }

  /** The rule the generator emits for one term combination. */
  function MakeRule(income: Term, debtLoad: Term, creditHistory: CreditHistory, age: Term): (r: Rule)
    ensures r.income == income && r.debtLoad == debtLoad && r.creditHistory == creditHistory && r.age == age
    ensures 0.10 <= r.weight <= 0.95
  {
    var g := GradeOf(TotalScore(income, debtLoad, creditHistory, age));
    GradeOfScore(TotalScore(income, debtLoad, creditHistory, age));
    Rule(income, debtLoad, creditHistory, age, g.output, g.weight)
  }

  /** Position of a term in its list (and in the loop that walks it). */
  function TermIndex(t: Term): nat
  {
    match t
    case VeryLow => 0
    case Low => 1
    case Medium => 2
    case High => 3
  }

  function CreditHistoryIndex(h: CreditHistory): nat
  {
    match h
    case Poor => 0
    case Average => 1
    case Good => 2
  }

  /** Position in the table of the rule for a combination, given the loop nesting. */
  function RuleIndex(income: Term, debtLoad: Term, creditHistory: CreditHistory, age: Term): nat
  {
    48 * TermIndex(income) + 12 * TermIndex(debtLoad) + 4 * CreditHistoryIndex(creditHistory) + TermIndex(age)
  }

  /** The whole table, in the order the four nested loops produce it. */
  function RuleTable(): (rs: seq<Rule>)
    ensures |rs| == 192
  {
    seq(192, k requires 0 <= k < 192 =>
      MakeRule(IncomeTerms[k / 48], DebtLoadTerms[k / 12 % 4], CreditHistoryTerms[k / 4 % 3], AgeTerms[k % 4]))
  }

  /** The table, built once and shared by every evaluation. */
  const FuzzyRules: seq<Rule> := RuleTable()

  /** The entry the innermost loop appends at step (i, d, h, a). */
  lemma RuleTableAt(i: nat, d: nat, h: nat, a: nat)
    requires i < 4 && d < 4 && h < 3 && a < 4
    ensures 48 * i + 12 * d + 4 * h + a < 192
    ensures RuleTable()[48 * i + 12 * d + 4 * h + a]
         == MakeRule(IncomeTerms[i], DebtLoadTerms[d], CreditHistoryTerms[h], AgeTerms[a])
  {
    IndexDigits(i, d, h, a);
  }

  /** The digits the table's comprehension reads back from a loop position. */
  lemma IndexDigits(i: nat, d: nat, h: nat, a: nat)
    requires i < 4 && d < 4 && h < 3 && a < 4
    ensures var k := 48 * i + 12 * d + 4 * h + a;
      k < 192 && k / 48 == i && k / 12 % 4 == d && k / 4 % 3 == h && k % 4 == a
  {
    var k := 48 * i + 12 * d + 4 * h + a;
    assert k / 4 == 12 * i + 3 * d + h;
    assert k / 12 == 4 * i + d;
  }

  /** Every table position is a loop position. */
  lemma IndexOfDigits(k: nat)
    requires k < 192
    ensures k / 48 < 4 && k / 12 % 4 < 4 && k / 4 % 3 < 3 && k % 4 < 4
    ensures k == 48 * (k / 48) + 12 * (k / 12 % 4) + 4 * (k / 4 % 3) + k % 4
  {
    assert k == 4 * (k / 4) + k % 4;
    assert k / 4 == 3 * (k / 12) + k / 4 % 3;
    assert k / 12 == 4 * (k / 48) + k / 12 % 4;
  }

  /** Extending a prefix by one element. */
  lemma PrefixSnoc<T>(s: seq<T>, k: nat)
    requires k < |s|
    ensures s[..k + 1] == s[..k] + [s[k]]
  {
  }

  /** Appending the rule of step (i, d, h, a) to the prefix before it gives the next prefix. */
  lemma RuleTableExtends(rules: seq<Rule>, i: nat, d: nat, h: nat, a: nat, rule: Rule)
    requires i < 4 && d < 4 && h < 3 && a < 4
    requires rules == RuleTable()[..48 * i + 12 * d + 4 * h + a]
    requires rule == MakeRule(IncomeTerms[i], DebtLoadTerms[d], CreditHistoryTerms[h], AgeTerms[a])
    ensures rules + [rule] == RuleTable()[..48 * i + 12 * d + 4 * h + a + 1]
  {
    var k := 48 * i + 12 * d + 4 * h + a;
    RuleTableAt(i, d, h, a);
    PrefixSnoc(RuleTable(), k);
  }

  /** `generateRules`: four nested loops over the term lists, one rule per combination. */
  method GenerateRules() returns (rules: seq<Rule>)
    ensures rules == RuleTable()
  {
    var incomeTerms := IncomeTerms;
    var debtLoadTerms := DebtLoadTerms;
    var creditHistoryTerms := CreditHistoryTerms;
    var ageTerms := AgeTerms;
    rules := [];

    for i := 0 to |incomeTerms|
      invariant rules == RuleTable()[..48 * i]
    {
      for d := 0 to |debtLoadTerms|
        invariant rules == RuleTable()[..48 * i + 12 * d]
      {
        for h := 0 to |creditHistoryTerms|
          invariant rules == RuleTable()[..48 * i + 12 * d + 4 * h]
        {
          for a := 0 to |ageTerms|
            invariant rules == RuleTable()[..48 * i + 12 * d + 4 * h + a]
          {
            var income, debtLoad, creditHistory, age :=
              incomeTerms[i], debtLoadTerms[d], creditHistoryTerms[h], ageTerms[a];
            var totalScore := IncomeScore(income) + DebtLoadScore(debtLoad)
                            + CreditHistoryScore(creditHistory) + AgeScore(age);

            var output: Output;
            var weight: real;
            if totalScore >= 9 {
              output := Output.VeryHigh;
              weight := 0.95 - (10 - totalScore) as real * 0.05;
            } else if totalScore >= 7 {
              output := Output.High;
              weight := 0.85 - (8 - totalScore) as real * 0.05;
            } else if totalScore >= 4 {
              output := Output.Medium;
              weight := 0.6 - (6 - totalScore) as real * 0.05;
            } else if totalScore >= 2 {
              output := Output.Low;
              weight := 0.3 - (3 - totalScore) as real * 0.05;
            } else {
              output := Output.VeryLow;
              weight := 0.15 - (1 - totalScore) as real * 0.05;
            }

            var rule := Rule(income, debtLoad, creditHistory, age, output, weight);
            assert rule == MakeRule(income, debtLoad, creditHistory, age);
            RuleTableExtends(rules, i, d, h, a, rule);
            rules := rules + [rule];
          }
        }
      }
    }
  }

  // ---------------------------------------------------------------------------
  // Properties of the rule table
  // ---------------------------------------------------------------------------

  /** Rank of an output class, from least to most favourable. */
  function Rank(o: Output): nat
  {
    match o
    case VeryLow => 0
    case Low => 1
    case Medium => 2
    case High => 3
    case VeryHigh => 4
  }

  /** The weights of the eleven possible scores, 0 to 10. */
  const ScoreWeights: seq<real> := [0.10, 0.15, 0.25, 0.30, 0.50, 0.55, 0.60, 0.80, 0.85, 0.90, 0.95]

  /** The threshold chain gives each score in 0..10 the class of its band and the weight listed for it. */
  lemma GradeOfScore(score: int)
    requires 0 <= score <= 10
    ensures GradeOf(score).weight == ScoreWeights[score]
    ensures GradeOf(score).output == Output.VeryHigh <==> score >= 9
    ensures GradeOf(score).output == Output.High <==> 7 <= score <= 8
    ensures GradeOf(score).output == Output.Medium <==> 4 <= score <= 6
    ensures GradeOf(score).output == Output.Low <==> 2 <= score <= 3
    ensures GradeOf(score).output == Output.VeryLow <==> score <= 1
  {
  }

  /** A higher score earns a strictly larger weight and a class at least as favourable. */
  lemma GradeMonotone(s: int, t: int)
    requires 0 <= s < t <= 10
    ensures GradeOf(s).weight < GradeOf(t).weight
    ensures Rank(GradeOf(s).output) <= Rank(GradeOf(t).output)
  {
    GradeOfScore(s);
    GradeOfScore(t);
  }

  /** Every combination of terms has its rule in the table, at the position the loop nesting gives it. */
  lemma RuleTableCovers(income: Term, debtLoad: Term, creditHistory: CreditHistory, age: Term)
    ensures RuleIndex(income, debtLoad, creditHistory, age) < |RuleTable()|
    ensures RuleTable()[RuleIndex(income, debtLoad, creditHistory, age)]
         == MakeRule(income, debtLoad, creditHistory, age)
  {
    RuleTableAt(TermIndex(income), TermIndex(debtLoad), CreditHistoryIndex(creditHistory), TermIndex(age));
  }

  /** Each entry is the rule of its own combination and sits at that combination's position. */
  lemma RuleTablePosition(k: nat)
    requires k < |RuleTable()|
    ensures var r := RuleTable()[k];
      r == MakeRule(r.income, r.debtLoad, r.creditHistory, r.age)
      && RuleIndex(r.income, r.debtLoad, r.creditHistory, r.age) == k
  {
    IndexOfDigits(k);
    PositionOfDigits(k / 48, k / 12 % 4, k / 4 % 3, k % 4);
  }

  /** `RuleTablePosition` at the position of loop step (i, d, h, a). */
  lemma PositionOfDigits(i: nat, d: nat, h: nat, a: nat)
    requires i < 4 && d < 4 && h < 3 && a < 4
    ensures var k := 48 * i + 12 * d + 4 * h + a;
      k < 192
      && var r := RuleTable()[k];
      r == MakeRule(r.income, r.debtLoad, r.creditHistory, r.age)
      && RuleIndex(r.income, r.debtLoad, r.creditHistory, r.age) == k
  {
    RuleTableAt(i, d, h, a);
    TermIndexRoundTrip(i);
    TermIndexRoundTrip(d);
    TermIndexRoundTrip(a);
    assert CreditHistoryIndex(CreditHistoryTerms[h]) == h;
  }

  /** `TermIndex` inverts indexing into the term lists. */
  lemma TermIndexRoundTrip(i: nat)
    requires i < 4
    ensures TermIndex(IncomeTerms[i]) == i && TermIndex(DebtLoadTerms[i]) == i && TermIndex(AgeTerms[i]) == i
  {
  }

  /** No two entries share a combination of terms, so the 192 entries are 192 distinct combinations. */
  lemma RuleTableNoDuplicates(j: nat, k: nat)
    requires j < k < |RuleTable()|
    ensures var (x, y) := (RuleTable()[j], RuleTable()[k]);
      (x.income, x.debtLoad, x.creditHistory, x.age) != (y.income, y.debtLoad, y.creditHistory, y.age)
  {
    RuleTablePosition(j);
    RuleTablePosition(k);
  }

  /** Every rule is classed by the band of its total score and weighted strictly inside (0, 1). */
  lemma RuleTableGrades(r: Rule)
    requires r in RuleTable()
    ensures var s := TotalScore(r.income, r.debtLoad, r.creditHistory, r.age);
      && r.weight == ScoreWeights[s]
      && (r.output == Output.VeryHigh <==> s >= 9)
      && (r.output == Output.High <==> 7 <= s <= 8)
      && (r.output == Output.Medium <==> 4 <= s <= 6)
      && (r.output == Output.Low <==> 2 <= s <= 3)
      && (r.output == Output.VeryLow <==> s <= 1)
    ensures 0.10 <= r.weight <= 0.95
  {
    var k :| 0 <= k < |RuleTable()| && RuleTable()[k] == r;
    RuleTablePosition(k);
    GradeOfScore(TotalScore(r.income, r.debtLoad, r.creditHistory, r.age));
  }

  // ---------------------------------------------------------------------------
  // Inference
  // ---------------------------------------------------------------------------

  /** The keys whose value is positive: `Object.entries(set).filter(([, v]) => v > 0).map(([k]) => k)`. */
  function ActiveKeys<K(==,!new)>(entries: seq<(K, real)>): (ks: seq<K>)
    ensures forall key :: key in ks <==> exists e :: e in entries && e.0 == key && e.1 > 0.0
  {
    if entries == [] then []
    else (if entries[0].1 > 0.0 then [entries[0].0] else []) + ActiveKeys(entries[1..])
  }

  /** The terms with non-zero membership. */
  function ActiveTerms(fuzzySet: FuzzySet): (ts: seq<Term>)
    ensures forall t :: t in ts <==> fuzzySet.Degree(t) > 0.0
  {
    var ts := ActiveKeys(fuzzySet.Entries());
    assert forall t :: fuzzySet.Degree(t) > 0.0 ==> (t, fuzzySet.Degree(t)) in fuzzySet.Entries();
    ts
  }

  /** The credit-history tiers with non-zero membership. */
  function ActiveCreditHistoryTerms(historySet: CreditHistorySet): (hs: seq<CreditHistory>)
    ensures forall h :: h in hs <==> historySet.Degree(h) > 0.0
  {
    var hs := ActiveKeys(historySet.Entries());
    assert forall h :: historySet.Degree(h) > 0.0 ==> (h, historySet.Degree(h)) in historySet.Entries();
    hs
  }

  /** A rule applies when all four of its terms have non-zero membership. */
  predicate Fires(r: Rule, m: Memberships)
  {
    && m.income.Degree(r.income) > 0.0
    && m.debtLoad.Degree(r.debtLoad) > 0.0
    && m.creditHistory.Degree(r.creditHistory) > 0.0
    && m.age.Degree(r.age) > 0.0
  }

  /** Fuzzy AND of the four memberships, scaled by the rule's weight. */
  function Firing(r: Rule, m: Memberships): (f: real)
    ensures r.weight > 0.0 ==> (f > 0.0 <==> Fires(r, m))
    ensures InUnit(m) && r.weight >= 0.0 ==> 0.0 <= f <= r.weight
  {
    ProductSigns(Strength(r, m), r.weight);
    Strength(r, m) * r.weight
  }

  /** `Math.min` of the four memberships of a rule's terms: the fuzzy AND. */
  function Strength(r: Rule, m: Memberships): (x: real)
    ensures x > 0.0 <==> Fires(r, m)
    ensures InUnit(m) ==> 0.0 <= x <= 1.0
  {
    var x := Min4(m.income.Degree(r.income), m.debtLoad.Degree(r.debtLoad),
                  m.creditHistory.Degree(r.creditHistory), m.age.Degree(r.age));
    assert InUnit(m) ==> 0.0 <= x <= 1.0 by {
      if InUnit(m) {
        assert 0.0 <= m.income.Degree(r.income) <= 1.0 && 0.0 <= m.debtLoad.Degree(r.debtLoad);
        assert 0.0 <= m.creditHistory.Degree(r.creditHistory) && 0.0 <= m.age.Degree(r.age);
      }
    }
    x
  }

  /** The strength aggregated for each output class (`outputWeights`). */
  datatype Strengths = Strengths(veryLow: real, low: real, medium: real, high: real, veryHigh: real)
  {
    /** `outputWeights[o]` */
    function Get(o: Output): real
    {
      match o
      case VeryLow => veryLow
      case Low => low
      case Medium => medium
      case High => high
      case VeryHigh => veryHigh
    }

    /** `outputWeights[o] = v` */
    function Put(o: Output, v: real): (s: Strengths)
      ensures s.Get(o) == v
      ensures forall p :: p != o ==> s.Get(p) == Get(p)
    {
      match o
      case VeryLow => this.(veryLow := v)
      case Low => this.(low := v)
      case Medium => this.(medium := v)
      case High => this.(high := v)
      case VeryHigh => this.(veryHigh := v)
    }

    function Sum(): real
    {
      veryLow + low + medium + high + veryHigh
    }
  }

  /** The initial record: every class at 0. */
  const NoStrengths: Strengths := Strengths(0.0, 0.0, 0.0, 0.0, 0.0)

  /** Fuzzy OR of a rule into its class: keep the larger of the two strengths. */
  function Combine(w: Strengths, r: Rule, m: Memberships): (c: Strengths)
    ensures c.Get(r.output) >= w.Get(r.output) && c.Get(r.output) >= Firing(r, m)
    ensures c.Get(r.output) == w.Get(r.output) || c.Get(r.output) == Firing(r, m)
    ensures forall o :: o != r.output ==> c.Get(o) == w.Get(o)
  {
    w.Put(r.output, Max(w.Get(r.output), Firing(r, m)))
  }

  /** Combining a rule whose four-way minimum is `ruleStrength`, as the loop body writes it. */
  lemma CombineIs(w: Strengths, r: Rule, m: Memberships, ruleStrength: real)
    requires ruleStrength == Min4(m.income.Degree(r.income), m.debtLoad.Degree(r.debtLoad),
                                  m.creditHistory.Degree(r.creditHistory), m.age.Degree(r.age))
    ensures Combine(w, r, m) == w.Put(r.output, Max(w.Get(r.output), ruleStrength * r.weight))
  {
  }

  /** One iteration of the evaluation loop: a rule with an inactive term is skipped. */
  function Step(w: Strengths, r: Rule, m: Memberships): (s: Strengths)
    ensures forall o :: s.Get(o) >= w.Get(o)
    ensures forall o :: o != r.output ==> s.Get(o) == w.Get(o)
    ensures !Fires(r, m) ==> s == w
  {
    if Fires(r, m) then Combine(w, r, m) else w
  }

  /** The strengths after the loop has visited the rules `rs` in order. */
  function Aggregate(rs: seq<Rule>, m: Memberships): (w: Strengths)
    ensures forall o :: w.Get(o) >= 0.0
    decreases |rs|
  {
    if rs == [] then NoStrengths
    else Step(Aggregate(rs[..|rs| - 1], m), rs[|rs| - 1], m)
  }

  /** Reference evaluation without the filter: every rule is combined into its class. */
  function AggregateAll(rs: seq<Rule>, m: Memberships): Strengths
    decreases |rs|
  {
    if rs == [] then NoStrengths
    else Combine(AggregateAll(rs[..|rs| - 1], m), rs[|rs| - 1], m)
  }

  /**
   * Each class strength is the maximum, over the applicable rules concluding that
   * class, of their firing strength, and 0 when none applies.
   */
  lemma {:induction false} AggregateIsMax(rs: seq<Rule>, m: Memberships, o: Output)
    ensures Aggregate(rs, m).Get(o) >= 0.0
    ensures forall r :: r in rs && r.output == o && Fires(r, m) ==> Firing(r, m) <= Aggregate(rs, m).Get(o)
    ensures Aggregate(rs, m).Get(o) == 0.0
         || exists r :: r in rs && r.output == o && Fires(r, m) && Firing(r, m) == Aggregate(rs, m).Get(o)
  {
    if rs != [] {
      var init, last := rs[..|rs| - 1], rs[|rs| - 1];
      assert rs == init + [last];
      AggregateIsMax(init, m, o);
    }
  }

  /** One more iteration of the loop folds the next rule into the strengths. */
  lemma AggregateExtends(rs: seq<Rule>, k: nat, m: Memberships)
    requires k < |rs|
    ensures Aggregate(rs[..k + 1], m) == Step(Aggregate(rs[..k], m), rs[k], m)
  {
    assert rs[..k + 1][..k] == rs[..k];
  }

  /** Strengths never drop below 0, whatever the memberships. */
  lemma AggregateNonNegative(rs: seq<Rule>, m: Memberships)
    ensures forall o :: Aggregate(rs, m).Get(o) >= 0.0
  {
    forall o {
      AggregateIsMax(rs, m, o);
    }
  }

  /** Skipping rules with an inactive term changes nothing when every weight is positive. */
  lemma {:induction false} AggregateSkipsOnlySilentRules(rs: seq<Rule>, m: Memberships)
    requires forall r :: r in rs ==> r.weight > 0.0
    ensures Aggregate(rs, m) == AggregateAll(rs, m)
  {
    if rs != [] {
      var init, last := rs[..|rs| - 1], rs[|rs| - 1];
      assert rs == init + [last];
      AggregateSkipsOnlySilentRules(init, m);
      if !Fires(last, m) {
        var w := Aggregate(init, m);
        var x := Min4(m.income.Degree(last.income), m.debtLoad.Degree(last.debtLoad),
                      m.creditHistory.Degree(last.creditHistory), m.age.Degree(last.age));
        assert x <= 0.0;
        assert Firing(last, m) <= 0.0 by {
          assert x * last.weight <= 0.0 * last.weight;
        }
        AggregateIsMax(init, m, last.output);
        assert Combine(w, last, m) == w.Put(last.output, w.Get(last.output));
      }
    }
  }

  /** Memberships that all lie in [0, 1]. */
  predicate InUnit(m: Memberships)
  {
    && (forall t :: 0.0 <= m.income.Degree(t) <= 1.0)
    && (forall t :: 0.0 <= m.debtLoad.Degree(t) <= 1.0)
    && (forall h :: 0.0 <= m.creditHistory.Degree(h) <= 1.0)
    && (forall t :: 0.0 <= m.age.Degree(t) <= 1.0)
  }

  /** With memberships in [0, 1], no class strength exceeds the largest rule weight. */
  lemma AggregateBounded(rs: seq<Rule>, m: Memberships, cap: real, o: Output)
    requires InUnit(m)
    requires 0.0 <= cap
    requires forall r :: r in rs ==> 0.0 < r.weight <= cap
    ensures 0.0 <= Aggregate(rs, m).Get(o) <= cap
  {
    AggregateIsMax(rs, m, o);
    var v := Aggregate(rs, m).Get(o);
    if v != 0.0 {
      var r :| r in rs && r.output == o && Fires(r, m) && Firing(r, m) == v;
    }
  }

  /** Every rule of the table has a weight in [0.10, 0.95]. */
  lemma FuzzyRulesWeights()
    ensures forall r :: r in FuzzyRules ==> 0.10 <= r.weight <= 0.95
  {
    forall r | r in FuzzyRules
      ensures 0.10 <= r.weight <= 0.95
    {
      RuleTableGrades(r);
    }
  }

  /** A class gets a positive strength from the table exactly when some rule concluding it applies. */
  lemma FuzzyRulesStrengthPositive(m: Memberships, o: Output)
    ensures Aggregate(FuzzyRules, m).Get(o) > 0.0
        <==> exists r :: r in FuzzyRules && r.output == o && Fires(r, m)
  {
    AggregateIsMax(FuzzyRules, m, o);
    if r :| r in FuzzyRules && r.output == o && Fires(r, m) {
      FuzzyRulesWeights();
      assert r.weight > 0.0;
    }
  }

  /** With memberships in [0, 1], every class strength from the table lies in [0, 0.95]. */
  lemma FuzzyRulesStrengthBounded(m: Memberships, o: Output)
    requires InUnit(m)
    ensures 0.0 <= Aggregate(FuzzyRules, m).Get(o) <= 0.95
  {
    FuzzyRulesWeights();
    AggregateBounded(FuzzyRules, m, 0.95, o);
  }

  // ---------------------------------------------------------------------------
  // Defuzzification
  // ---------------------------------------------------------------------------

  /**
   * Weighted average of the class anchors 10, 30, 50, 80 and 95; a zero total
   * strength is replaced by 1 (`|| 1`). Non-negative strengths give 0 exactly
   * when all of them are 0, and a value in [10, 95] otherwise.
   */
  function Defuzzify(w: Strengths): (p: real)
    ensures (forall o :: w.Get(o) >= 0.0) ==>
      && (p == 0.0 <==> w == NoStrengths)
      && (w != NoStrengths ==> 10.0 <= p <= 95.0)
  {
    assert (forall o :: w.Get(o) >= 0.0) ==>
      w.veryLow >= 0.0 && w.low >= 0.0 && w.medium >= 0.0 && w.high >= 0.0 && w.veryHigh >= 0.0
    by {
      if forall o :: w.Get(o) >= 0.0 {
        assert w.Get(Output.VeryLow) >= 0.0 && w.Get(Output.Low) >= 0.0 && w.Get(Output.Medium) >= 0.0;
        assert w.Get(Output.High) >= 0.0 && w.Get(Output.VeryHigh) >= 0.0;
      }
    }
    AnchorAverage(w.veryLow, w.low, w.medium, w.high, w.veryHigh)
  }

  /** `numerator / (total || 1)` over the anchors 10, 30, 50, 80 and 95. */
  function AnchorAverage(a: real, b: real, c: real, d: real, e: real): (p: real)
    ensures a >= 0.0 && b >= 0.0 && c >= 0.0 && d >= 0.0 && e >= 0.0 ==>
      && (p == 0.0 <==> a == 0.0 && b == 0.0 && c == 0.0 && d == 0.0 && e == 0.0)
      && (a + b + c + d + e != 0.0 ==> 10.0 <= p <= 95.0)
  {
    var total := a + b + c + d + e;
    var num := a * 10.0 + b * 30.0 + c * 50.0 + d * 80.0 + e * 95.0;
    if total == 0.0 then num / 1.0
    else
      assert a >= 0.0 && b >= 0.0 && c >= 0.0 && d >= 0.0 && e >= 0.0 ==> 10.0 <= num / total <= 95.0 by {
        if a >= 0.0 && b >= 0.0 && c >= 0.0 && d >= 0.0 && e >= 0.0 {
          QuotientBounds(num, total, 10.0, 95.0);
        }
      }
      num / total
  }

  /** All-zero strengths defuzzify to 0: the divisor falls back to 1. */
  lemma DefuzzifyNone()
    ensures Defuzzify(NoStrengths) == 0.0
  {
    assert forall o :: NoStrengths.Get(o) >= 0.0;
  }

  // ---------------------------------------------------------------------------
  // Evaluation
  // ---------------------------------------------------------------------------

  /**
   * `evaluateRules`: filter the active terms, fold every applicable rule of the
   * table into its class by max, then defuzzify.
   */
  method EvaluateRules(income: FuzzySet, debtLoad: FuzzySet, creditHistory: CreditHistorySet, age: FuzzySet)
    returns (probability: real, weights: Strengths)
    ensures weights == Aggregate(FuzzyRules, Memberships(income, debtLoad, creditHistory, age))
    ensures weights == AggregateAll(FuzzyRules, Memberships(income, debtLoad, creditHistory, age))
    ensures probability == Defuzzify(weights)
    ensures probability == 0.0 <==> weights == NoStrengths
    ensures probability == 0.0 || 10.0 <= probability <= 95.0
  {
    ghost var m := Memberships(income, debtLoad, creditHistory, age);
    weights := NoStrengths;

    var activeIncomeTerms := ActiveTerms(income);
    var activeDebtLoadTerms := ActiveTerms(debtLoad);
    var activeCreditHistoryTerms := ActiveCreditHistoryTerms(creditHistory);
    var activeAgeTerms := ActiveTerms(age);

    for k := 0 to |FuzzyRules|
      invariant weights == Aggregate(FuzzyRules[..k], m)
    {
      var rule := FuzzyRules[k];
      ghost var before := weights;
      if && rule.income in activeIncomeTerms
         && rule.debtLoad in activeDebtLoadTerms
         && rule.creditHistory in activeCreditHistoryTerms
         && rule.age in activeAgeTerms
      {
        var ruleStrength := Min4(income.Degree(rule.income), debtLoad.Degree(rule.debtLoad),
                                 creditHistory.Degree(rule.creditHistory), age.Degree(rule.age));
        weights := weights.Put(rule.output, Max(weights.Get(rule.output), ruleStrength * rule.weight));
        CombineIs(before, rule, m, ruleStrength);
      } else {
        assert !Fires(rule, m);
      }
      assert weights == Step(before, rule, m);
      AggregateExtends(FuzzyRules, k, m);
    }
    assert FuzzyRules[..|FuzzyRules|] == FuzzyRules;

    FuzzyRulesWeights();
    AggregateSkipsOnlySilentRules(FuzzyRules, m);
    probability := Defuzzify(weights);
  }
}
