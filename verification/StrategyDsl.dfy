/** The strategy language: indicator comparisons, all/any combinations, and what validation refuses. */
module StrategyDsl {
  import opened Common

  datatype Operator = Gt | Gte | Lt | Lte

  datatype Condition =
    | Comparison(left: string, op: Operator, right: string)
    | Logical(all: bool, parts: seq<Condition>)

  datatype Indicator = Indicator(name: string, window: nat)

  /** `indicators` keeps the dictionary's insertion order; its names are distinct. */
  datatype Spec = Spec(indicators: seq<Indicator>, entry: Condition, exit: Condition, sizing: real,
                       filters: seq<Condition>, maxBars: nat, maxIndicators: nat, maxComplexity: nat)

  // ----- What the schema guarantees before validation -----

  predicate Shaped(c: Condition) {
    c.Logical? ==> 2 <= |c.parts| <= 8 && forall i :: 0 <= i < |c.parts| ==> Shaped(c.parts[i])
  }

  predicate DistinctNames(indicators: seq<Indicator>) {
    forall i, j :: 0 <= i < j < |indicators| ==> indicators[i].name != indicators[j].name
  }

  predicate WellFormed(spec: Spec) {
    && 2 <= |spec.indicators| <= 16 && DistinctNames(spec.indicators)
    && (forall i :: 0 <= i < |spec.indicators| ==> 2 <= spec.indicators[i].window <= 500)
    && Shaped(spec.entry) && Shaped(spec.exit)
    && |spec.filters| <= 8 && (forall i :: 0 <= i < |spec.filters| ==> Shaped(spec.filters[i]))
    && 0.0 < spec.sizing <= 1.0
  }

  // ----- Validation -----

  datatype Problem =
    | UnknownReference(name: string) | SelfComparison | IdenticalEntryAndExit | InvertedWindows
    | TooManyIndicators | TooComplex

  predicate Declares(indicators: seq<Indicator>, name: string) {
    exists i :: 0 <= i < |indicators| && indicators[i].name == name
  }

  function WindowOf(indicators: seq<Indicator>, name: string): (window: nat)
    requires Declares(indicators, name)
    ensures Indicator(name, window) in indicators
  {
    if indicators[0].name == name then indicators[0].window else WindowOf(indicators[1..], name)
  }

  function ReferenceProblems(indicators: seq<Indicator>, name: string): seq<Problem> {
    if Declares(indicators, name) then [] else [UnknownReference(name)]
  }

  function ConditionProblems(c: Condition, indicators: seq<Indicator>): seq<Problem>
    decreases c, 1
  {
    match c
    case Comparison(left, _, right) =>
      ReferenceProblems(indicators, left) + ReferenceProblems(indicators, right)
      + if left == right then [SelfComparison] else []
    case Logical(_, parts) => PartsProblems(parts, indicators)
  }

  function PartsProblems(parts: seq<Condition>, indicators: seq<Indicator>): seq<Problem>
    decreases parts, 0
  {
    if parts == [] then []
    else PartsProblems(parts[..|parts| - 1], indicators) + ConditionProblems(parts[|parts| - 1], indicators)
  }

  function Complexity(c: Condition): nat
    decreases c, 1
  {
    match c
    case Comparison(_, _, _) => 1
    case Logical(_, parts) => 1 + PartsComplexity(parts)
  }

  function PartsComplexity(parts: seq<Condition>): nat
    decreases parts, 0
  {
    if parts == [] then 0 else PartsComplexity(parts[..|parts| - 1]) + Complexity(parts[|parts| - 1])
  }

  function ComplexityScore(spec: Spec): nat {
    |spec.indicators| * 2 + Complexity(spec.entry) + Complexity(spec.exit) + PartsComplexity(spec.filters)
  }

  /** The entry and the exit compare the same two averages in opposite directions. */
  predicate Crossover(spec: Spec) {
    && spec.entry.Comparison? && spec.exit.Comparison?
    && spec.entry.left == spec.exit.left && spec.entry.right == spec.exit.right
    && (spec.entry.op == Gt || spec.entry.op == Gte) && (spec.exit.op == Lt || spec.exit.op == Lte)
  }

  predicate Inverted(spec: Spec) {
    && Crossover(spec)
    && Declares(spec.indicators, spec.entry.left) && Declares(spec.indicators, spec.entry.right)
    && WindowOf(spec.indicators, spec.entry.left) >= WindowOf(spec.indicators, spec.entry.right)
  }

  function When(b: bool, p: Problem): seq<Problem> { if b then [p] else [] }

  function RuleProblems(spec: Spec): seq<Problem> {
    ConditionProblems(spec.entry, spec.indicators)
    + ConditionProblems(spec.exit, spec.indicators)
    + PartsProblems(spec.filters, spec.indicators)
  }

  function Problems(spec: Spec): seq<Problem> {
    RuleProblems(spec)
    + When(spec.entry == spec.exit, IdenticalEntryAndExit)
    + When(Inverted(spec), InvertedWindows)
    + When(|spec.indicators| > spec.maxIndicators, TooManyIndicators)
    + When(ComplexityScore(spec) > spec.maxComplexity, TooComplex)
  }

  /** Adds a condition's problems to the list the caller is collecting. */
  method ValidateCondition(c: Condition, indicators: seq<Indicator>, errors: seq<Problem>) returns (after: seq<Problem>)
    ensures after == errors + ConditionProblems(c, indicators)
    decreases c, 1
  {
    after := errors;
    match c
    case Comparison(left, _, right) =>
      if !Declares(indicators, left) { after := after + [UnknownReference(left)]; }
      if !Declares(indicators, right) { after := after + [UnknownReference(right)]; }
      if left == right { after := after + [SelfComparison]; }
    case Logical(_, parts) =>
      after := ValidateParts(parts, indicators, errors);
  }

  method ValidateParts(parts: seq<Condition>, indicators: seq<Indicator>, errors: seq<Problem>)
    returns (after: seq<Problem>)
    ensures after == errors + PartsProblems(parts, indicators)
    decreases parts, 0
  {
    after := errors;
    assert parts[..0] == [];
    for i := 0 to |parts|
      invariant after == errors + PartsProblems(parts[..i], indicators)
    {
      assert parts[..i + 1][..i] == parts[..i];
      after := ValidateCondition(parts[i], indicators, after);
    }
    assert parts[..|parts|] == parts;
  }

  method ValidateStrategy(spec: Spec) returns (errors: seq<Problem>)
    ensures errors == Problems(spec)
  {
    hide Inverted, ComplexityScore, ConditionProblems, PartsProblems;
    errors := ValidateRules(spec);
    hide RuleProblems;
    if spec.entry == spec.exit { errors := errors + [IdenticalEntryAndExit]; }
    assert errors == RuleProblems(spec) + When(spec.entry == spec.exit, IdenticalEntryAndExit);
    if Inverted(spec) { errors := errors + [InvertedWindows]; }
    if |spec.indicators| > spec.maxIndicators { errors := errors + [TooManyIndicators]; }
    if ComplexityScore(spec) > spec.maxComplexity { errors := errors + [TooComplex]; }
  }

  method ValidateRules(spec: Spec) returns (errors: seq<Problem>)
    ensures errors == RuleProblems(spec)
  {
    hide ConditionProblems, PartsProblems;
    errors := ValidateCondition(spec.entry, spec.indicators, []);
    errors := ValidateCondition(spec.exit, spec.indicators, errors);
    errors := ValidateParts(spec.filters, spec.indicators, errors);
  }

  /** Every comparison in the condition is between two different declared indicators. */
  predicate Grounded(c: Condition, indicators: seq<Indicator>) {
    match c
    case Comparison(left, _, right) => Declares(indicators, left) && Declares(indicators, right) && left != right
    case Logical(_, parts) => forall i :: 0 <= i < |parts| ==> Grounded(parts[i], indicators)
  }

  lemma {:induction false} NoProblemsIffGrounded(c: Condition, indicators: seq<Indicator>)
    ensures ConditionProblems(c, indicators) == [] <==> Grounded(c, indicators)
    decreases c, 1
  {
    if c.Logical? {
      NoPartProblemsIffGrounded(c.parts, indicators);
    }
  }

  lemma {:induction false} NoPartProblemsIffGrounded(parts: seq<Condition>, indicators: seq<Indicator>)
    ensures PartsProblems(parts, indicators) == [] <==> forall i :: 0 <= i < |parts| ==> Grounded(parts[i], indicators)
    decreases parts, 0
  {
    if parts != [] {
      NoPartProblemsIffGrounded(parts[..|parts| - 1], indicators);
      NoProblemsIffGrounded(parts[|parts| - 1], indicators);
    }
  }

  /** A specification passes validation exactly when it means something: see each conjunct. */
  lemma ValidIffMeaningful(spec: Spec)
    ensures Problems(spec) == [] <==>
            && Grounded(spec.entry, spec.indicators) && Grounded(spec.exit, spec.indicators)
            && (forall i :: 0 <= i < |spec.filters| ==> Grounded(spec.filters[i], spec.indicators))
            && spec.entry != spec.exit && !Inverted(spec)
            && |spec.indicators| <= spec.maxIndicators && ComplexityScore(spec) <= spec.maxComplexity
  {
    NoProblemsIffGrounded(spec.entry, spec.indicators);
    NoProblemsIffGrounded(spec.exit, spec.indicators);
    NoPartProblemsIffGrounded(spec.filters, spec.indicators);
  }

  /** The condition compares the named indicator with something. */
  predicate Reads(c: Condition, name: string) {
    match c
    case Comparison(left, _, right) => name == left || name == right
    case Logical(_, parts) => exists i :: 0 <= i < |parts| && Reads(parts[i], name)
  }

  /** Somewhere in the condition an indicator is compared with itself. */
  predicate ComparesItself(c: Condition) {
    match c
    case Comparison(left, _, right) => left == right
    case Logical(_, parts) => exists i :: 0 <= i < |parts| && ComparesItself(parts[i])
  }

  /** The condition with everything inside it. */
  function Nodes(c: Condition): seq<Condition>
    decreases c, 1
  {
    match c
    case Comparison(_, _, _) => [c]
    case Logical(_, parts) => [c] + NodesOf(parts)
  }

  function NodesOf(parts: seq<Condition>): seq<Condition>
    decreases parts, 0
  {
    if parts == [] then [] else NodesOf(parts[..|parts| - 1]) + Nodes(parts[|parts| - 1])
  }

  /** Complexity counts comparisons and combinations alike. */
  lemma {:induction false} ComplexityCounts(c: Condition)
    ensures Complexity(c) == |Nodes(c)|
    decreases c, 1
  {
    if c.Logical? {
      PartsComplexityCounts(c.parts);
    }
  }

  lemma {:induction false} PartsComplexityCounts(parts: seq<Condition>)
    ensures PartsComplexity(parts) == |NodesOf(parts)|
    decreases parts, 0
  {
    if parts != [] {
      PartsComplexityCounts(parts[..|parts| - 1]);
      ComplexityCounts(parts[|parts| - 1]);
    }
  }

  lemma {:induction false} ConditionCauses(c: Condition, indicators: seq<Indicator>, p: Problem)
    ensures p in ConditionProblems(c, indicators) <==>
            || (p.UnknownReference? && Reads(c, p.name) && !Declares(indicators, p.name))
            || (p.SelfComparison? && ComparesItself(c))
    decreases c, 1
  {
    if c.Logical? {
      PartsCauses(c.parts, indicators, p);
    }
  }

  lemma {:induction false} PartsCauses(parts: seq<Condition>, indicators: seq<Indicator>, p: Problem)
    ensures p in PartsProblems(parts, indicators) <==>
            || (p.UnknownReference? && !Declares(indicators, p.name)
                && exists i :: 0 <= i < |parts| && Reads(parts[i], p.name))
            || (p.SelfComparison? && exists i :: 0 <= i < |parts| && ComparesItself(parts[i]))
    decreases parts, 0
  {
    hide Reads, ComparesItself, ConditionProblems, Declares;
    if parts != [] {
      var front := parts[..|parts| - 1];
      PartsCauses(front, indicators, p);
      ConditionCauses(parts[|parts| - 1], indicators, p);
      assert forall i :: 0 <= i < |front| ==> front[i] == parts[i];
      assert p.UnknownReference? && (exists i :: 0 <= i < |front| && Reads(front[i], p.name)) ==>
          exists i :: 0 <= i < |parts| && Reads(parts[i], p.name);
      assert (exists i :: 0 <= i < |front| && ComparesItself(front[i])) ==>
          exists i :: 0 <= i < |parts| && ComparesItself(parts[i]);
    }
  }

  /** Some condition of the specification reads the name. */
  predicate Uses(spec: Spec, name: string) {
    || Reads(spec.entry, name) || Reads(spec.exit, name)
    || exists i :: 0 <= i < |spec.filters| && Reads(spec.filters[i], name)
  }

  /** Both rules compare these two indicators, above to enter and below to leave, and the first window is no shorter. */
  ghost predicate InvertedPair(spec: Spec, left: Indicator, right: Indicator) {
    && left in spec.indicators && right in spec.indicators && left.window >= right.window
    && (spec.entry == Comparison(left.name, Gt, right.name) || spec.entry == Comparison(left.name, Gte, right.name))
    && (spec.exit == Comparison(left.name, Lt, right.name) || spec.exit == Comparison(left.name, Lte, right.name))
  }

  lemma InvertedIsPair(spec: Spec)
    requires DistinctNames(spec.indicators)
    ensures Inverted(spec) <==> exists left, right :: InvertedPair(spec, left, right)
  {
    if Inverted(spec) {
      var left := Indicator(spec.entry.left, WindowOf(spec.indicators, spec.entry.left));
      var right := Indicator(spec.entry.right, WindowOf(spec.indicators, spec.entry.right));
      assert InvertedPair(spec, left, right);
    }
    if left, right :| InvertedPair(spec, left, right) {
      OnlyWindow(spec.indicators, left);
      OnlyWindow(spec.indicators, right);
    }
  }

  lemma OnlyWindow(indicators: seq<Indicator>, indicator: Indicator)
    requires DistinctNames(indicators) && indicator in indicators
    ensures Declares(indicators, indicator.name) && WindowOf(indicators, indicator.name) == indicator.window
  {
    var i :| 0 <= i < |indicators| && indicators[i] == indicator;
    var found := Indicator(indicator.name, WindowOf(indicators, indicator.name));
    var j :| 0 <= j < |indicators| && indicators[j] == found;
  }

  /** Each problem is reported exactly when its cause is there. */
  lemma ProblemsNameTheirCause(spec: Spec, p: Problem)
    requires DistinctNames(spec.indicators)
    ensures p in Problems(spec) <==>
            match p
            case UnknownReference(name) => Uses(spec, name) && !Declares(spec.indicators, name)
            case SelfComparison =>
              || ComparesItself(spec.entry) || ComparesItself(spec.exit)
              || exists i :: 0 <= i < |spec.filters| && ComparesItself(spec.filters[i])
            case IdenticalEntryAndExit => spec.entry == spec.exit
            case InvertedWindows => exists left, right :: InvertedPair(spec, left, right)
            case TooManyIndicators => |spec.indicators| > spec.maxIndicators
            case TooComplex =>
              2 * |spec.indicators| + |Nodes(spec.entry)| + |Nodes(spec.exit)| + |NodesOf(spec.filters)|
              > spec.maxComplexity
  {
    hide Reads, ComparesItself, ConditionProblems, PartsProblems, Inverted, Declares, Complexity, PartsComplexity, Nodes, NodesOf;
    ConditionCauses(spec.entry, spec.indicators, p);
    ConditionCauses(spec.exit, spec.indicators, p);
    PartsCauses(spec.filters, spec.indicators, p);
    InvertedIsPair(spec);
    ComplexityCounts(spec.entry);
    ComplexityCounts(spec.exit);
    PartsComplexityCounts(spec.filters);
  }

  /** The bridge from the legacy two-window request. */
  function CrossoverSpec(fast: nat, slow: nat): Spec {
    Spec([Indicator("fast_ma", fast), Indicator("slow_ma", slow)],
         Comparison("fast_ma", Gt, "slow_ma"), Comparison("fast_ma", Lt, "slow_ma"),
         1.0, [], 100000, 16, 32)
  }
}
