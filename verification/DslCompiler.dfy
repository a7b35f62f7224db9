/** Compiling a specification to columns: rolling means, three-valued conditions, forward fill and a one-bar shift. */
module DslCompiler {
  import opened Common
  import opened StrategyDsl

  /** A numeric column with nulls. */
  type Column = seq<Option<real>>

  /** The three truth values of a column of comparisons. */
  datatype Truth = Yes | No | Unknown

  type Frame = map<string, Column>

  function And(a: Truth, b: Truth): Truth {
    if a == No || b == No then No else if a == Yes && b == Yes then Yes else Unknown
  }

  function Or(a: Truth, b: Truth): Truth {
    if a == Yes || b == Yes then Yes else if a == No && b == No then No else Unknown
  }

  function Compare(op: Operator, a: Option<real>, b: Option<real>): Truth {
    if a == None || b == None then Unknown
    else if Relates(op, a.value, b.value) then Yes else No
  }

  predicate Relates(op: Operator, a: real, b: real) {
    match op
    case Gt => a > b
    case Gte => a >= b
    case Lt => a < b
    case Lte => a <= b
  }

  // ----- The frame: one rolling mean per indicator, each read from the column named "close" -----

  function Present(xs: Column): seq<real>
    requires forall i :: 0 <= i < |xs| ==> xs[i].Some?
    ensures |Present(xs)| == |xs|
  {
    seq(|xs|, i requires 0 <= i < |xs| => xs[i].value)
  }

  /** The rolling mean at a row: null until the window is full, and null while a null is inside it. */
  function RollingAt(xs: Column, window: nat, row: nat): Option<real>
    requires row < |xs| && window > 0
  {
    if row + 1 < window then None
    else
      var slice := xs[row + 1 - window..row + 1];
      if exists i :: 0 <= i < |slice| && slice[i] == None then None else Some(Mean(Present(slice)))
  }

  function RollingMean(xs: Column, window: nat): Column
    requires window > 0
    ensures |RollingMean(xs, window)| == |xs|
  {
    seq(|xs|, i requires 0 <= i < |xs| => RollingAt(xs, window, i))
  }

  function Closes(closes: seq<real>): Column
    ensures |Closes(closes)| == |closes|
  {
    seq(|closes|, i requires 0 <= i < |closes| => Some(closes[i]))
  }

  predicate Windowed(indicators: seq<Indicator>) {
    forall i :: 0 <= i < |indicators| ==> indicators[i].window > 0
  }

  predicate Rectangular(frame: Frame, rows: nat) {
    "close" in frame && forall name :: name in frame ==> |frame[name]| == rows
  }

  function AddIndicators(frame: Frame, indicators: seq<Indicator>): (f: Frame)
    requires "close" in frame && Windowed(indicators)
    ensures "close" in f
  {
    if indicators == [] then frame
    else
      var before := AddIndicators(frame, indicators[..|indicators| - 1]);
      var last := indicators[|indicators| - 1];
      before[last.name := RollingMean(before["close"], last.window)]
  }

  function FrameOf(spec: Spec, closes: seq<real>): (f: Frame)
    requires Windowed(spec.indicators)
    ensures "close" in f
  {
    AddIndicators(map["close" := Closes(closes)], spec.indicators)
  }

  lemma {:induction false} FrameShape(frame: Frame, indicators: seq<Indicator>, rows: nat)
    requires Rectangular(frame, rows) && Windowed(indicators)
    ensures Rectangular(AddIndicators(frame, indicators), rows)
    ensures forall name :: name in AddIndicators(frame, indicators) <==> name in frame || Declares(indicators, name)
  {
    hide RollingMean;
    if indicators != [] {
      var n := |indicators| - 1;
      FrameShape(frame, indicators[..n], rows);
      forall name: string
        ensures Declares(indicators, name) <==> Declares(indicators[..n], name) || name == indicators[n].name
      {
        if name == indicators[n].name {
          assert indicators[n].name == name;
        }
        if Declares(indicators[..n], name) {
          var i :| 0 <= i < n && indicators[..n][i].name == name;
          assert indicators[i].name == name;
        }
        if Declares(indicators, name) && name != indicators[n].name {
          var i :| 0 <= i < |indicators| && indicators[i].name == name;
          assert indicators[..n][i].name == name;
        }
      }
    }
  }

  // ----- Conditions at a row -----

  type Row = map<string, Option<real>>

  function RowOf(frame: Frame, rows: nat, i: nat): Row
    requires Rectangular(frame, rows) && i < rows
  {
    map name | name in frame :: frame[name][i]
  }

  function Lookup(row: Row, name: string): Option<real> { if name in row then row[name] else None }

  function Eval(c: Condition, row: Row): Truth
    requires Shaped(c)
    decreases c, 1
  {
    match c
    case Comparison(left, op, right) => Compare(op, Lookup(row, left), Lookup(row, right))
    case Logical(all, parts) => EvalParts(all, parts, row)
  }

  /** The left fold of a nonempty list of conditions. */
  function EvalParts(all: bool, parts: seq<Condition>, row: Row): Truth
    requires |parts| >= 1 && forall i :: 0 <= i < |parts| ==> Shaped(parts[i])
    decreases parts, 0
  {
    var last := Eval(parts[|parts| - 1], row);
    if |parts| == 1 then last
    else if all then And(EvalParts(all, parts[..|parts| - 1], row), last)
    else Or(EvalParts(all, parts[..|parts| - 1], row), last)
  }

  function Allowed(filters: seq<Condition>, row: Row): Truth
    requires forall i :: 0 <= i < |filters| ==> Shaped(filters[i])
  {
    if filters == [] then Yes
    else And(Allowed(filters[..|filters| - 1], row), Eval(filters[|filters| - 1], row))
  }

  predicate Enters(spec: Spec, row: Row)
    requires WellFormed(spec)
  {
    And(Eval(spec.entry, row), Allowed(spec.filters, row)) == Yes
  }

  predicate Exits(spec: Spec, row: Row)
    requires WellFormed(spec)
  {
    Eval(spec.exit, row) == Yes
  }

  // ----- From conditions to positions -----

  function SignalAt(spec: Spec, row: Row): Option<real>
    requires WellFormed(spec)
  {
    if Enters(spec, row) then Some(spec.sizing) else if Exits(spec, row) then Some(0.0) else None
  }

  function Signals(spec: Spec, frame: Frame, rows: nat): Column
    requires WellFormed(spec) && Rectangular(frame, rows)
    ensures |Signals(spec, frame, rows)| == rows
  {
    seq(rows, i requires 0 <= i < rows => SignalAt(spec, RowOf(frame, rows, i)))
  }

  function ForwardFill(xs: Column): (ys: Column)
    ensures |ys| == |xs|
  {
    if xs == [] then []
    else
      var front := ForwardFill(xs[..|xs| - 1]);
      front + [if xs[|xs| - 1].Some? then xs[|xs| - 1] else if front == [] then None else front[|front| - 1]]
  }

  function FillNull(xs: Column, x: real): seq<real>
    ensures |FillNull(xs, x)| == |xs|
  {
    seq(|xs|, i requires 0 <= i < |xs| => xs[i].GetOr(x))
  }

  function Shift(xs: seq<real>): (ys: Column)
    ensures |ys| == |xs|
  {
    seq(|xs|, i requires 0 <= i < |xs| => if i == 0 then None else Some(xs[i - 1]))
  }

  /** The position column: signals carried forward, moved one bar later, and zero before the first. */
  function PositionColumn(spec: Spec, closes: seq<real>): (p: seq<real>)
    requires WellFormed(spec)
    ensures |p| == |closes|
  {
    var frame := FrameOf(spec, closes);
    FrameShape(map["close" := Closes(closes)], spec.indicators, |closes|);
    FillNull(Shift(FillNull(ForwardFill(Signals(spec, frame, |closes|)), 0.0)), 0.0)
  }

  datatype Refusal = Invalid(problems: seq<Problem>) | TooManyBars

  function Evaluate(spec: Spec, closes: seq<real>): Result<seq<real>, Refusal>
    requires WellFormed(spec)
  {
    if Problems(spec) != [] then Err(Invalid(Problems(spec)))
    else if |closes| > spec.maxBars then Err(TooManyBars)
    else Ok(PositionColumn(spec, closes))
  }

  // ----- The same, as loops over columns -----

  function TruthColumn(c: Condition, frame: Frame, rows: nat): seq<Truth>
    requires Shaped(c) && Rectangular(frame, rows)
  {
    seq(rows, i requires 0 <= i < rows => Eval(c, RowOf(frame, rows, i)))
  }

  /** Builds a condition's column, folding the columns of its parts from the left. */
  method ConditionExpression(c: Condition, frame: Frame, rows: nat) returns (column: seq<Truth>)
    requires Shaped(c) && Rectangular(frame, rows)
    ensures column == TruthColumn(c, frame, rows)
    decreases c
  {
    match c
    case Comparison(left, op, right) =>
      column := seq(rows, i requires 0 <= i < rows =>
                      Compare(op, Lookup(RowOf(frame, rows, i), left), Lookup(RowOf(frame, rows, i), right)));
    case Logical(all, parts) =>
      column := ConditionExpression(parts[0], frame, rows);
      assert parts[..1] == [parts[0]];
      for k := 1 to |parts|
        invariant |column| == rows
        invariant forall i :: 0 <= i < rows ==> column[i] == EvalParts(all, parts[..k], RowOf(frame, rows, i))
      {
        assert parts[..k + 1][..k] == parts[..k];
        var next := ConditionExpression(parts[k], frame, rows);
        column := seq(rows, i requires 0 <= i < rows =>
                        if all then And(column[i], next[i]) else Or(column[i], next[i]));
      }
      assert parts[..|parts|] == parts;
  }

  method EvaluatePositions(spec: Spec, closes: seq<real>) returns (r: Result<seq<real>, Refusal>)
    requires WellFormed(spec)
    ensures r == Evaluate(spec, closes)
  {
    hide RollingMean, Problems, Eval;
    var errors := ValidateStrategy(spec);
    if errors != [] { return Err(Invalid(errors)); }
    if |closes| > spec.maxBars { return Err(TooManyBars); }
    var rows := |closes|;
    var frame: Frame := map["close" := Closes(closes)];
    ghost var bare := frame;
    assert spec.indicators[..0] == [];
    for k := 0 to |spec.indicators|
      invariant "close" in frame && frame == AddIndicators(bare, spec.indicators[..k])
    {
      assert spec.indicators[..k + 1][..k] == spec.indicators[..k];
      var indicator := spec.indicators[k];
      frame := frame[indicator.name := RollingMean(frame["close"], indicator.window)];
    }
    assert spec.indicators[..|spec.indicators|] == spec.indicators;
    FrameShape(bare, spec.indicators, rows);
    var entry := ConditionExpression(spec.entry, frame, rows);
    var exit := ConditionExpression(spec.exit, frame, rows);
    var allowed := seq(rows, i requires 0 <= i < rows => Yes);
    assert spec.filters[..0] == [];
    for k := 0 to |spec.filters|
      invariant |allowed| == rows
      invariant forall i :: 0 <= i < rows ==> allowed[i] == Allowed(spec.filters[..k], RowOf(frame, rows, i))
    {
      assert spec.filters[..k + 1][..k] == spec.filters[..k];
      var next := ConditionExpression(spec.filters[k], frame, rows);
      allowed := seq(rows, i requires 0 <= i < rows => And(allowed[i], next[i]));
    }
    assert spec.filters[..|spec.filters|] == spec.filters;
    var signals := seq(rows, i requires 0 <= i < rows =>
                         if And(entry[i], allowed[i]) == Yes then Some(spec.sizing)
                         else if exit[i] == Yes then Some(0.0) else None);
    assert signals == Signals(spec, frame, rows);
    return Ok(FillNull(Shift(FillNull(ForwardFill(signals), 0.0)), 0.0));
  }
}
