/** What a compiled strategy means: a latch automaton over simple moving averages of the close. */
module DslMeaning {
  import opened Common
  import opened StrategyDsl
  import opened DslCompiler
  import opened ConditionMeaning

  // ----- The automaton -----

  /** The position held after the first k rows of a frame: set on entry, cleared on exit, kept otherwise. */
  function Latch(spec: Spec, frame: Frame, rows: nat, k: nat): real
    requires WellFormed(spec) && Rectangular(frame, rows) && k <= rows
  {
    if k == 0 then 0.0
    else
      var row := RowOf(frame, rows, k - 1);
      if Enters(spec, row) then spec.sizing
      else if Exits(spec, row) then 0.0
      else Latch(spec, frame, rows, k - 1)
  }

  /** The filled signal of a row is the automaton's position after it. */
  lemma {:induction false} FilledIsLatch(spec: Spec, frame: Frame, rows: nat, k: nat)
    requires WellFormed(spec) && Rectangular(frame, rows) && k < rows
    ensures ForwardFill(Signals(spec, frame, rows)[..k + 1])[k].GetOr(0.0) == Latch(spec, frame, rows, k + 1)
  {
    hide Enters, Exits, RowOf;
    var s := Signals(spec, frame, rows);
    assert s[..k + 1][..k] == s[..k];
    if k > 0 {
      FilledIsLatch(spec, frame, rows, k - 1);
    }
  }

  lemma {:induction false} ForwardFillPrefix(xs: Column, n: nat)
    requires n <= |xs|
    ensures ForwardFill(xs)[..n] == ForwardFill(xs[..n])
    decreases |xs|
  {
    if n == |xs| {
      assert xs[..n] == xs;
    } else {
      var front := xs[..|xs| - 1];
      ForwardFillPrefix(front, n);
      assert front[..n] == xs[..n];
      assert ForwardFill(xs)[..n] == ForwardFill(front)[..n];
    }
  }

  lemma PositionsFollowLatch(spec: Spec, closes: seq<real>, k: nat)
    requires WellFormed(spec) && k < |closes|
    ensures Rectangular(FrameOf(spec, closes), |closes|)
    ensures PositionColumn(spec, closes)[k] == Latch(spec, FrameOf(spec, closes), |closes|, k)
  {
    hide Enters, Exits, Signals, ForwardFill;
    var frame, rows := FrameOf(spec, closes), |closes|;
    FrameShape(map["close" := Closes(closes)], spec.indicators, rows);
    if k > 0 {
      FilledIsLatch(spec, frame, rows, k - 1);
      ForwardFillPrefix(Signals(spec, frame, rows), k);
    }
  }

  // ----- The averages -----

  /** The simple moving average of the closes at a row; null until the window is full. */
  function SmaAt(closes: seq<real>, window: nat, row: nat): Option<real>
    requires row < |closes| && window > 0
  {
    if row + 1 < window then None else Some(Mean(closes[row + 1 - window..row + 1]))
  }

  function Sma(closes: seq<real>, window: nat): Column
    requires window > 0
    ensures |Sma(closes, window)| == |closes|
  {
    seq(|closes|, i requires 0 <= i < |closes| => SmaAt(closes, window, i))
  }

  lemma RollingOverCloses(closes: seq<real>, window: nat)
    requires window > 0
    ensures RollingMean(Closes(closes), window) == Sma(closes, window)
  {
    hide RollingAt, SmaAt;
    forall i | 0 <= i < |closes|
      ensures RollingAt(Closes(closes), window, i) == SmaAt(closes, window, i)
    {
      RollingAtRow(closes, window, i);
    }
  }

  lemma RollingAtRow(closes: seq<real>, window: nat, i: nat)
    requires window > 0 && i < |closes|
    ensures RollingAt(Closes(closes), window, i) == SmaAt(closes, window, i)
  {
    hide Mean;
    if i + 1 >= window {
      var slice := Closes(closes)[i + 1 - window..i + 1];
      assert Present(slice) == closes[i + 1 - window..i + 1];
    }
  }

  /** No indicator but the last is named "close", so none changes what a later one reads. */
  predicate CloseIntact(indicators: seq<Indicator>) {
    forall i :: 0 <= i < |indicators| - 1 ==> indicators[i].name != "close"
  }

  /** Each indicator's column is the moving average of the bars' closes. */
  ghost predicate Averages(frame: Frame, indicators: seq<Indicator>, closes: seq<real>)
    requires Windowed(indicators)
  {
    forall i :: 0 <= i < |indicators| ==>
      indicators[i].name in frame && frame[indicators[i].name] == Sma(closes, indicators[i].window)
  }

  /** No indicator before this one is named "close". */
  predicate Unshadowed(indicators: seq<Indicator>, j: nat)
    requires j <= |indicators|
  {
    forall i :: 0 <= i < j ==> indicators[i].name != "close"
  }

  /** Each indicator that is not declared after one named "close" has its moving average. */
  lemma {:induction false} UnshadowedAverages(indicators: seq<Indicator>, closes: seq<real>)
    requires Windowed(indicators) && DistinctNames(indicators)
    ensures var frame := AddIndicators(map["close" := Closes(closes)], indicators);
            && (forall j :: 0 <= j < |indicators| && Unshadowed(indicators, j) ==>
                  indicators[j].name in frame && frame[indicators[j].name] == Sma(closes, indicators[j].window))
            && (Unshadowed(indicators, |indicators|) ==> frame["close"] == Closes(closes))
  {
    hide RollingMean, Sma, Closes;
    if indicators != [] {
      var n := |indicators| - 1;
      UnshadowedAverages(indicators[..n], closes);
      RollingOverCloses(closes, indicators[n].window);
      assert forall j :: 0 <= j <= n ==> (Unshadowed(indicators, j) <==> Unshadowed(indicators[..n], j));
    }
  }

  /** A window that reaches back to a null first row has no mean. */
  lemma NullStaysInWindow(column: Column, window: nat)
    requires 1 <= window <= |column| && column[0] == None
    ensures RollingMean(column, window)[window - 1] == None
  {
    var slice := column[..window];
    assert column[window - 1 + 1 - window..window - 1 + 1] == slice;
    assert slice[0] == None;
  }

  /** After an indicator named "close", every later column averages that average. */
  lemma {:induction false} ShadowedAverages(indicators: seq<Indicator>, closes: seq<real>, j: nat)
    requires Windowed(indicators) && DistinctNames(indicators) && j < |indicators| && indicators[j].name == "close"
    ensures var frame := AddIndicators(map["close" := Closes(closes)], indicators);
            && frame["close"] == Sma(closes, indicators[j].window)
            && forall i :: j < i < |indicators| ==>
                 indicators[i].name in frame
                 && frame[indicators[i].name] == RollingMean(Sma(closes, indicators[j].window), indicators[i].window)
  {
    hide RollingMean, Sma, Closes;
    var n := |indicators| - 1;
    if j < n {
      ShadowedAverages(indicators[..n], closes, j);
    } else {
      assert Unshadowed(indicators[..n], n);
      UnshadowedAverages(indicators[..n], closes);
      RollingOverCloses(closes, indicators[n].window);
    }
  }

  /** So it starts with nulls its own average would not have. */
  lemma ShadowedStaysNull(indicators: seq<Indicator>, closes: seq<real>, j: nat)
    requires Windowed(indicators) && DistinctNames(indicators) && j < |indicators|
    requires indicators[j].name == "close" && indicators[j].window >= 2 && closes != []
    ensures var frame := AddIndicators(map["close" := Closes(closes)], indicators);
            forall i :: j < i < |indicators| && 1 <= indicators[i].window <= |closes| ==>
              indicators[i].name in frame && |frame[indicators[i].name]| == |closes|
              && frame[indicators[i].name][indicators[i].window - 1] == None
  {
    hide RollingMean;
    ShadowedAverages(indicators, closes, j);
    var column := Sma(closes, indicators[j].window);
    assert column[0] == None;
    forall i | j < i < |indicators| && 1 <= indicators[i].window <= |closes|
      ensures RollingMean(column, indicators[i].window)[indicators[i].window - 1] == None
    {
      NullStaysInWindow(column, indicators[i].window);
    }
  }

  /**
    The columns are the moving averages the specification names exactly when no indicator but the last is called
    "close": such an indicator overwrites the price column that later indicators read.
   */
  lemma AveragesIffCloseIntact(spec: Spec, closes: seq<real>)
    requires WellFormed(spec) && forall i :: 0 <= i < |spec.indicators| ==> spec.indicators[i].window <= |closes|
    ensures Averages(FrameOf(spec, closes), spec.indicators, closes) <==> CloseIntact(spec.indicators)
  {
    if CloseIntact(spec.indicators) {
      UnshadowedAverages(spec.indicators, closes);
      assert forall j :: 0 <= j < |spec.indicators| ==> Unshadowed(spec.indicators, j);
    } else {
      var j :| 0 <= j < |spec.indicators| - 1 && spec.indicators[j].name == "close";
      var i := |spec.indicators| - 1;
      var w := spec.indicators[i].window;
      ShadowedStaysNull(spec.indicators, closes, j);
      assert Sma(closes, w)[w - 1].Some?;
      hide AddIndicators, RollingMean;
    }
  }

  // ----- Compiler correctness -----

  /** A row of the averages the specification names. */
  function AverageRow(spec: Spec, closes: seq<real>, i: nat): Row
    requires Windowed(spec.indicators) && i < |closes|
  {
    map name | name in NamesOf(spec.indicators) && Declares(spec.indicators, name)
      :: SmaAt(closes, WindowOf(spec.indicators, name), i)
  }

  function NamesOf(indicators: seq<Indicator>): set<string> {
    set i | 0 <= i < |indicators| :: indicators[i].name
  }

  /** The automaton over moving averages: what the strategy document describes. */
  function Automaton(spec: Spec, closes: seq<real>, k: nat): real
    requires WellFormed(spec) && k <= |closes|
  {
    if k == 0 then 0.0
    else
      var row := AverageRow(spec, closes, k - 1);
      if EntryFires(spec, row) then spec.sizing
      else if ExitFires(spec, row) then 0.0
      else Automaton(spec, closes, k - 1)
  }

  /** No condition reads an indicator that is declared after one named "close". */
  predicate ReadsUnshadowed(spec: Spec) {
    forall j :: 0 <= j < |spec.indicators| && Uses(spec, spec.indicators[j].name) ==> Unshadowed(spec.indicators, j)
  }

  /** Two rows that agree on every indicator the specification reads. */
  ghost predicate Agree(spec: Spec, a: Row, b: Row) {
    forall name :: Uses(spec, name) ==> Lookup(a, name) == Lookup(b, name)
  }

  lemma {:induction false} EvalAgrees(c: Condition, a: Row, b: Row)
    requires Shaped(c) && forall name :: Reads(c, name) ==> Lookup(a, name) == Lookup(b, name)
    ensures Eval(c, a) == Eval(c, b)
    decreases c, 1
  {
    if c.Logical? {
      forall i, name | 0 <= i < |c.parts| && Reads(c.parts[i], name)
        ensures Lookup(a, name) == Lookup(b, name)
      {
        assert Reads(c, name);
      }
      PartsAgree(c.all, c.parts, a, b);
    } else {
      assert Reads(c, c.left) && Reads(c, c.right);
    }
  }

  lemma {:induction false} PartsAgree(all: bool, parts: seq<Condition>, a: Row, b: Row)
    requires |parts| >= 1 && forall i :: 0 <= i < |parts| ==> Shaped(parts[i])
    requires forall i, name :: 0 <= i < |parts| && Reads(parts[i], name) ==> Lookup(a, name) == Lookup(b, name)
    ensures EvalParts(all, parts, a) == EvalParts(all, parts, b)
    decreases parts, 0
  {
    EvalAgrees(parts[|parts| - 1], a, b);
    if |parts| > 1 {
      PartsAgree(all, parts[..|parts| - 1], a, b);
    }
  }

  lemma {:induction false} AllowedAgrees(filters: seq<Condition>, a: Row, b: Row)
    requires forall i :: 0 <= i < |filters| ==> Shaped(filters[i])
    requires forall i, name :: 0 <= i < |filters| && Reads(filters[i], name) ==> Lookup(a, name) == Lookup(b, name)
    ensures Allowed(filters, a) == Allowed(filters, b)
  {
    if filters != [] {
      AllowedAgrees(filters[..|filters| - 1], a, b);
      EvalAgrees(filters[|filters| - 1], a, b);
    }
  }

  lemma RulesAgree(spec: Spec, a: Row, b: Row)
    requires WellFormed(spec) && Agree(spec, a, b)
    ensures Enters(spec, a) == Enters(spec, b) && Exits(spec, a) == Exits(spec, b)
  {
    hide Eval, Reads;
    forall i, name | 0 <= i < |spec.filters| && Reads(spec.filters[i], name)
      ensures Lookup(a, name) == Lookup(b, name)
    {
      assert Uses(spec, name);
    }
    forall name | Reads(spec.entry, name) || Reads(spec.exit, name)
      ensures Lookup(a, name) == Lookup(b, name)
    {
      assert Uses(spec, name);
    }
    EvalAgrees(spec.entry, a, b);
    EvalAgrees(spec.exit, a, b);
    AllowedAgrees(spec.filters, a, b);
  }

  lemma {:induction false} ReadsAreDeclared(c: Condition, indicators: seq<Indicator>, name: string)
    requires Grounded(c, indicators) && Reads(c, name)
    ensures Declares(indicators, name)
  {
    if c.Logical? {
      var i :| 0 <= i < |c.parts| && Reads(c.parts[i], name);
      ReadsAreDeclared(c.parts[i], indicators, name);
    }
  }

  /** A valid specification reads only what it declares. */
  lemma UsesAreDeclared(spec: Spec, name: string)
    requires Problems(spec) == [] && Uses(spec, name)
    ensures Declares(spec.indicators, name)
  {
    hide Problems, Reads, Grounded;
    ValidIffMeaningful(spec);
    if Reads(spec.entry, name) {
      ReadsAreDeclared(spec.entry, spec.indicators, name);
    } else if Reads(spec.exit, name) {
      ReadsAreDeclared(spec.exit, spec.indicators, name);
    } else {
      var i :| 0 <= i < |spec.filters| && Reads(spec.filters[i], name);
      ReadsAreDeclared(spec.filters[i], spec.indicators, name);
    }
  }

  lemma {:induction false} WindowOfName(indicators: seq<Indicator>, i: nat)
    requires DistinctNames(indicators) && i < |indicators|
    ensures Declares(indicators, indicators[i].name) && WindowOf(indicators, indicators[i].name) == indicators[i].window
  {
    assert Declares(indicators, indicators[i].name);
    if i > 0 {
      assert indicators[0].name != indicators[i].name;
      WindowOfName(indicators[1..], i - 1);
    }
  }

  lemma NamedAverage(spec: Spec, closes: seq<real>, row: nat, i: nat)
    requires WellFormed(spec) && row < |closes| && i < |spec.indicators|
    ensures Lookup(AverageRow(spec, closes, row), spec.indicators[i].name)
            == SmaAt(closes, spec.indicators[i].window, row)
  {
    WindowOfName(spec.indicators, i);
    hide SmaAt;
  }

  lemma RowsAgree(spec: Spec, closes: seq<real>, i: nat)
    requires WellFormed(spec) && Problems(spec) == [] && ReadsUnshadowed(spec) && i < |closes|
    requires Rectangular(FrameOf(spec, closes), |closes|)
    ensures Agree(spec, RowOf(FrameOf(spec, closes), |closes|, i), AverageRow(spec, closes, i))
  {
    hide AddIndicators, Sma, SmaAt, Problems, Uses, Unshadowed;
    UnshadowedAverages(spec.indicators, closes);
    forall name | Uses(spec, name)
      ensures Lookup(RowOf(FrameOf(spec, closes), |closes|, i), name) == Lookup(AverageRow(spec, closes, i), name)
    {
      UsesAreDeclared(spec, name);
      var j :| 0 <= j < |spec.indicators| && spec.indicators[j].name == name;
      WindowOfName(spec.indicators, j);
      SmaRow(closes, spec.indicators[j].window, i);
    }
  }

  lemma SmaRow(closes: seq<real>, window: nat, i: nat)
    requires window > 0 && i < |closes|
    ensures Sma(closes, window)[i] == SmaAt(closes, window, i)
  {
  }

  lemma {:induction false} LatchIsAutomaton(spec: Spec, closes: seq<real>, k: nat)
    requires WellFormed(spec) && Problems(spec) == [] && ReadsUnshadowed(spec) && k <= |closes|
    requires Rectangular(FrameOf(spec, closes), |closes|)
    ensures Latch(spec, FrameOf(spec, closes), |closes|, k) == Automaton(spec, closes, k)
  {
    hide Problems, Enters, Exits, EntryFires, ExitFires, FrameOf, RowOf, AverageRow, ReadsUnshadowed, Agree;
    if k > 0 {
      LatchIsAutomaton(spec, closes, k - 1);
      RulesDecide(spec, AverageRow(spec, closes, k - 1));
      RowsAgree(spec, closes, k - 1);
      RulesAgree(spec, RowOf(FrameOf(spec, closes), |closes|, k - 1), AverageRow(spec, closes, k - 1));
    }
  }

  /**
    For every validated specification that reads no indicator declared after one named "close", and every bar sequence
    within its limit, the compiled position column is the automaton: row k holds what the first k bars decided,
    starting from zero.
   */
  lemma CompilerCorrect(spec: Spec, closes: seq<real>)
    requires WellFormed(spec) && ReadsUnshadowed(spec)
    requires Problems(spec) == [] && |closes| <= spec.maxBars
    ensures var r := Evaluate(spec, closes);
            && r.Ok? && |r.value| == |closes|
            && forall k :: 0 <= k < |closes| ==> r.value[k] == Automaton(spec, closes, k)
  {
    hide Problems, PositionColumn, Automaton, ReadsUnshadowed;
    forall k | 0 <= k < |closes|
      ensures PositionColumn(spec, closes)[k] == Automaton(spec, closes, k)
    {
      PositionsFollowLatch(spec, closes, k);
      LatchIsAutomaton(spec, closes, k);
    }
  }

  // ----- No lookahead -----

  lemma RollingPrefix(xs: Column, n: nat, window: nat)
    requires n <= |xs| && window > 0
    ensures RollingMean(xs[..n], window) == RollingMean(xs, window)[..n]
  {
    forall i | 0 <= i < n
      ensures RollingAt(xs[..n], window, i) == RollingAt(xs, window, i)
    {
      if i + 1 >= window {
        assert xs[..n][i + 1 - window..i + 1] == xs[i + 1 - window..i + 1];
      }
    }
  }

  /** The frame over the first n rows is the first n rows of the frame. */
  lemma {:induction false} FramePrefix(frame: Frame, short: Frame, indicators: seq<Indicator>, rows: nat, n: nat)
    requires Rectangular(frame, rows) && Windowed(indicators) && n <= rows
    requires short.Keys == frame.Keys && forall name :: name in frame ==> short[name] == frame[name][..n]
    ensures var a, b := AddIndicators(frame, indicators), AddIndicators(short, indicators);
            && Rectangular(a, rows) && Rectangular(b, n)
            && b.Keys == a.Keys && forall name :: name in a ==> b[name] == a[name][..n]
  {
    hide RollingMean;
    FrameShape(frame, indicators, rows);
    FrameShape(short, indicators, n);
    if indicators != [] {
      var front := indicators[..|indicators| - 1];
      FrameShape(frame, front, rows);
      FramePrefix(frame, short, front, rows, n);
      RollingPrefix(AddIndicators(frame, front)["close"], n, indicators[|indicators| - 1].window);
    }
  }

  lemma {:induction false} LatchPrefix(spec: Spec, a: Frame, b: Frame, rows: nat, n: nat, k: nat)
    requires WellFormed(spec) && Rectangular(a, rows) && Rectangular(b, n) && k <= n <= rows
    requires b.Keys == a.Keys && forall name :: name in a ==> b[name] == a[name][..n]
    ensures Latch(spec, a, rows, k) == Latch(spec, b, n, k)
  {
    hide Enters, Exits;
    if k > 0 {
      LatchPrefix(spec, a, b, rows, n, k - 1);
      assert RowOf(a, rows, k - 1) == RowOf(b, n, k - 1);
    }
  }

  /** Row k of the position column depends on the closes before bar k only, whatever the bars from k on. */
  lemma PositionsArePrefixStable(spec: Spec, closes: seq<real>, others: seq<real>, k: nat)
    requires WellFormed(spec) && k < |closes| && k < |others| && closes[..k] == others[..k]
    ensures PositionColumn(spec, closes)[k] == PositionColumn(spec, others)[k]
  {
    PositionFromPrefix(spec, closes, k);
    PositionFromPrefix(spec, others, k);
    hide PositionColumn;
  }

  lemma PositionFromPrefix(spec: Spec, closes: seq<real>, k: nat)
    requires WellFormed(spec) && k < |closes|
    ensures Rectangular(FrameOf(spec, closes[..k]), k)
    ensures PositionColumn(spec, closes)[k] == Latch(spec, FrameOf(spec, closes[..k]), k, k)
  {
    hide PositionColumn, Latch;
    PositionsFollowLatch(spec, closes, k);
    var bare: Frame, short: Frame := map["close" := Closes(closes)], map["close" := Closes(closes[..k])];
    assert Closes(closes[..k]) == Closes(closes)[..k];
    FramePrefix(bare, short, spec.indicators, |closes|, k);
    LatchPrefix(spec, FrameOf(spec, closes), FrameOf(spec, closes[..k]), |closes|, k, k);
  }

  // ----- Null averages never decide -----

  /** A value for every indicator, agreeing with the row wherever the row is not null. */
  ghost predicate Completes(full: map<string, real>, row: Row, indicators: seq<Indicator>) {
    forall name :: Declares(indicators, name) ==>
      name in full && (Lookup(row, name).Some? ==> full[name] == Lookup(row, name).value)
  }

  /** The two-valued meaning of a condition. */
  predicate Holds(c: Condition, full: map<string, real>) {
    Fires(c, map name | name in full :: Some(full[name]))
  }

  /** What a row decides stays decided when its nulls get values. */
  lemma {:induction false} DecidedStays(c: Condition, row: Row, full: Row)
    requires forall name :: Reads(c, name) && Known(row, name) ==> Known(full, name) && full[name] == row[name]
    ensures Fires(c, row) ==> Fires(c, full)
    ensures Fails(c, row) ==> Fails(c, full)
  {
    if c.Logical? {
      forall i | 0 <= i < |c.parts|
        ensures Fires(c.parts[i], row) ==> Fires(c.parts[i], full)
        ensures Fails(c.parts[i], row) ==> Fails(c.parts[i], full)
      {
        assert forall name :: Reads(c.parts[i], name) ==> Reads(c, name);
        DecidedStays(c.parts[i], row, full);
      }
    } else {
      assert Reads(c, c.left) && Reads(c, c.right);
    }
  }

  /**
    A condition that a row decides has that value however its nulls are filled; and a row without nulls decides it.
   */
  lemma {:induction false} EvalIsExact(c: Condition, row: Row, full: map<string, real>, indicators: seq<Indicator>)
    requires Shaped(c) && Grounded(c, indicators) && Completes(full, row, indicators)
    ensures Eval(c, row) == Yes ==> Holds(c, full)
    ensures Eval(c, row) == No ==> !Holds(c, full)
    ensures (forall name :: Reads(c, name) ==> Known(row, name)) ==> Eval(c, row) == if Holds(c, full) then Yes else No
  {
    hide Fires, Fails, Grounded;
    var values: Row := map name | name in full :: Some(full[name]);
    forall name | Reads(c, name)
      ensures Known(values, name)
      ensures Known(row, name) ==> values[name] == row[name]
    {
      ReadsAreDeclared(c, indicators, name);
    }
    ConditionDecides(c, row);
    DecidedStays(c, row, values);
    KnownRowsDecide(c, values);
    if forall name :: Reads(c, name) ==> Known(row, name) {
      KnownRowsDecide(c, row);
    }
  }

  /** An entry or exit that fires while some averages are null would fire whatever values they could take. */
  lemma NullsNeverDecide(spec: Spec, row: Row, full: map<string, real>)
    requires WellFormed(spec) && Problems(spec) == [] && Completes(full, row, spec.indicators)
    ensures Enters(spec, row) ==>
              Holds(spec.entry, full) && forall i :: 0 <= i < |spec.filters| ==> Holds(spec.filters[i], full)
    ensures Exits(spec, row) ==> Holds(spec.exit, full)
  {
    hide Problems, Eval, Holds, Grounded;
    ValidIffMeaningful(spec);
    EvalIsExact(spec.entry, row, full, spec.indicators);
    EvalIsExact(spec.exit, row, full, spec.indicators);
    if Enters(spec, row) {
      RulesDecide(spec, row);
      forall i | 0 <= i < |spec.filters|
        ensures Holds(spec.filters[i], full)
      {
        ConditionDecides(spec.filters[i], row);
        EvalIsExact(spec.filters[i], row, full, spec.indicators);
      }
    }
  }
}
