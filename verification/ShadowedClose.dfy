/** What an indicator named "close" does to the positions of a crossover strategy. */
module ShadowedClose {
  import opened Common
  import opened StrategyDsl
  import opened DslCompiler
  import opened DslMeaning

  /** The compiled positions are those of the automaton over the averages the specification names. */
  ghost predicate FollowsAutomaton(spec: Spec, closes: seq<real>)
    requires WellFormed(spec)
  {
    var r := Evaluate(spec, closes);
    && r.Ok? && |r.value| == |closes|
    && forall k :: 0 <= k < |closes| ==> r.value[k] == Automaton(spec, closes, k)
  }

  // ----- Sums of a few odd terms -----

  /** All terms are c but the last two. */
  predicate EndsIn(xs: seq<real>, c: real, a: real, b: real) {
    |xs| >= 2 && (forall i :: 0 <= i < |xs| - 2 ==> xs[i] == c) && xs[|xs| - 2] == a && xs[|xs| - 1] == b
  }

  /** Only the last two terms move the mean away from c. */
  lemma MeanEndsIn(xs: seq<real>, c: real, a: real, b: real)
    requires EndsIn(xs, c, a, b)
    ensures |xs| as real * (Mean(xs) - c) == a - c + b - c
  {
    hide Sum;
    var n := |xs| - 2;
    SumOfEqual(xs[..n], c);
    SumAppend(xs[..n], a);
    SumAppend(xs[..n] + [a], b);
    assert xs == xs[..n] + [a] + [b];
    MeanTimes(Sum(xs), |xs| as real, c);
    assert |xs| as real * c == n as real * c + 2.0 * c;
  }

  lemma MeanTimes(total: real, n: real, c: real)
    requires n > 0.0
    ensures n * (total / n - c) == total - n * c
  {
  }

  // ----- The closes that tell the two apart -----

  /** Closes of four, a fall to two, a rise to seven, and a last four. */
  function Turn(slow: nat): (closes: seq<real>)
    requires slow >= 2
    ensures |closes| == slow + 1
  {
    seq(slow + 1, i requires 0 <= i < slow + 1 => if i == slow - 2 then 2.0 else if i == slow - 1 then 7.0 else 4.0)
  }

  /** The averages of the closes, window by window, up to the rise. */
  lemma TurnAverages(slow: nat, window: nat, i: nat)
    requires 2 <= window <= i + 1 <= slow
    ensures SmaAt(Turn(slow), window, i).Some?
    ensures var gap := window as real * (SmaAt(Turn(slow), window, i).value - 4.0);
            gap == if i == slow - 1 then 1.0 else if i == slow - 2 then -2.0 else 0.0
  {
    hide Mean;
    var slice := Turn(slow)[i + 1 - window..i + 1];
    MeanEndsIn(slice, 4.0, slice[window - 2], slice[window - 1]);
  }

  lemma Closer(a: real, b: real, m: real, n: real)
    requires 0.0 < m < n && m * a == 1.0 && n * b == 1.0
    ensures a > b > 0.0
  {
    PositiveFactor(n, b);
    PositiveProduct(n - m, b);
    assert m * (a - b) == m * a - n * b + (n - m) * b;
    PositiveFactor(m, a - b);
  }

  lemma PositiveFactor(n: real, x: real)
    requires n > 0.0 && n * x > 0.0
    ensures x > 0.0
  {
  }

  /** The averages that are named: the fast one is above the slow one once the slow one exists. */
  lemma NamedRise(fast: nat, slow: nat)
    requires 2 <= fast < slow
    ensures var f, s := SmaAt(Turn(slow), fast, slow - 1), SmaAt(Turn(slow), slow, slow - 1);
            f.Some? && s.Some? && f.value > s.value > 4.0
  {
    hide SmaAt;
    TurnAverages(slow, fast, slow - 1);
    TurnAverages(slow, slow, slow - 1);
    Closer(SmaAt(Turn(slow), fast, slow - 1).value - 4.0, SmaAt(Turn(slow), slow, slow - 1).value - 4.0,
           fast as real, slow as real);
  }

  /** An average of averages: null, or below four. */
  lemma AveragedFalls(fast: nat, slow: nat, window: nat)
    requires 2 <= fast < slow && window >= 2
    ensures var r := RollingMean(Sma(Turn(slow), window), fast)[slow - 1]; r == None || r.value < 4.0
  {
    hide SmaAt, Sma, Mean, Turn, Present, RollingMean;
    var column := Sma(Turn(slow), window);
    var slice := column[slow - fast..slow];
    RollingOver(column, fast, slow - 1, slice);
    if forall i :: 0 <= i < |slice| ==> slice[i].Some? {
      FullWindows(slow, window, slow - fast);
      forall i | 0 <= i < fast
        ensures window as real * (slice[i].value - 4.0)
                == if i == fast - 1 then 1.0 else if i == fast - 2 then -2.0 else 0.0
      {
        SmaRow(Turn(slow), window, slow - fast + i);
        TurnAverages(slow, window, slow - fast + i);
      }
      PresentAt(slice);
      FallingMean(Present(slice), window as real);
    }
  }

  lemma RollingOver(column: Column, window: nat, row: nat, slice: Column)
    requires 0 < window <= row + 1 <= |column| && slice == column[row + 1 - window..row + 1]
    ensures RollingMean(column, window)[row]
            == if forall i :: 0 <= i < |slice| ==> slice[i].Some? then Some(Mean(Present(slice))) else None
  {
    hide Mean;
  }

  lemma PresentAt(slice: Column)
    requires forall i :: 0 <= i < |slice| ==> slice[i].Some?
    ensures forall i :: 0 <= i < |slice| ==> Present(slice)[i] == slice[i].value
  {
  }

  lemma FullWindows(slow: nat, window: nat, first: nat)
    requires slow >= 2 && window >= 2 && first < slow && Sma(Turn(slow), window)[first].Some?
    ensures window <= first + 1
  {
  }

  lemma FallingMean(xs: seq<real>, window: real)
    requires |xs| >= 2 && window > 0.0
    requires forall i :: 0 <= i < |xs| ==>
               window * (xs[i] - 4.0) == if i == |xs| - 1 then 1.0 else if i == |xs| - 2 then -2.0 else 0.0
    ensures Mean(xs) < 4.0
  {
    hide Mean;
    var n := |xs|;
    forall i | 0 <= i < n - 2
      ensures xs[i] == 4.0
    {
      NoGap(xs[i] - 4.0, window);
    }
    MeanEndsIn(xs, 4.0, xs[n - 2], xs[n - 1]);
    assert window * (xs[n - 2] - 4.0 + xs[n - 1] - 4.0) == -1.0;
    Negative(xs[n - 2] - 4.0 + xs[n - 1] - 4.0, window);
    Negative(Mean(xs) - 4.0, n as real);
  }

  lemma NoGap(x: real, window: real)
    requires window > 0.0 && window * x == 0.0
    ensures x == 0.0
  {
  }

  lemma Negative(x: real, window: real)
    requires window > 0.0 && window * x < 0.0
    ensures x < 0.0
  {
  }

  // ----- The two position columns on them -----

  /** A crossover of two declared averages, both conditions reading them and nothing else deciding. */
  predicate PlainCrossover(spec: Spec) { Crossover(spec) && spec.filters == [] }

  /** The indicators the crossover compares. */
  ghost predicate Compares(spec: Spec, left: nat, right: nat) {
    && spec.entry.Comparison? && left < |spec.indicators| && right < |spec.indicators|
    && spec.indicators[left].name == spec.entry.left && spec.indicators[right].name == spec.entry.right
  }

  /** A valid crossover compares two declared averages, the faster on the left. */
  lemma Compared(spec: Spec) returns (left: nat, right: nat)
    requires WellFormed(spec) && Problems(spec) == [] && PlainCrossover(spec)
    ensures Compares(spec, left, right)
    ensures spec.indicators[left].window < spec.indicators[right].window
    ensures WindowOf(spec.indicators, spec.entry.right) == spec.indicators[right].window
  {
    hide Problems, WellFormed;
    ValidIffMeaningful(spec);
    left :| 0 <= left < |spec.indicators| && spec.indicators[left].name == spec.entry.left;
    right :| 0 <= right < |spec.indicators| && spec.indicators[right].name == spec.entry.right;
    AreDistinct(spec);
    WindowOfName(spec.indicators, left);
    WindowOfName(spec.indicators, right);
  }

  lemma AreDistinct(spec: Spec)
    requires WellFormed(spec)
    ensures DistinctNames(spec.indicators) && Windowed(spec.indicators)
  {
  }

  /** What the frame holds at a row under an indicator's name. */
  function CompiledAt(spec: Spec, closes: seq<real>, j: nat, i: nat): Option<real>
    requires WellFormed(spec) && j < |spec.indicators| && i < |closes|
  {
    var frame := FrameOf(spec, closes);
    FrameShape(map["close" := Closes(closes)], spec.indicators, |closes|);
    Lookup(RowOf(frame, |closes|, i), spec.indicators[j].name)
  }

  /** An average is what it is called, or an average of another one. */
  lemma CompiledAverage(spec: Spec, closes: seq<real>, j: nat, i: nat)
    requires WellFormed(spec) && j < |spec.indicators| && i < |closes|
    ensures Unshadowed(spec.indicators, j) ==>
              CompiledAt(spec, closes, j, i) == SmaAt(closes, spec.indicators[j].window, i)
    ensures !Unshadowed(spec.indicators, j) ==>
              exists w :: w >= 2 && CompiledAt(spec, closes, j, i)
                                    == RollingMean(Sma(closes, w), spec.indicators[j].window)[i]
  {
    hide RollingMean, SmaAt;
    var indicators := spec.indicators;
    FrameShape(map["close" := Closes(closes)], indicators, |closes|);
    if Unshadowed(indicators, j) {
      UnshadowedAverages(indicators, closes);
    } else {
      var c :| 0 <= c < j && indicators[c].name == "close";
      ShadowedAverages(indicators, closes, c);
      assert CompiledAt(spec, closes, j, i) == RollingMean(Sma(closes, indicators[c].window), indicators[j].window)[i];
    }
  }

  lemma NullBefore(spec: Spec, closes: seq<real>, j: nat, i: nat)
    requires WellFormed(spec) && j < |spec.indicators| && i < |closes| && i + 1 < spec.indicators[j].window
    ensures CompiledAt(spec, closes, j, i) == None
  {
    hide CompiledAt, Mean;
    CompiledAverage(spec, closes, j, i);
  }

  /** A shadowed average is still null on the row where its own average begins. */
  lemma ShadowedIsNull(spec: Spec, closes: seq<real>, j: nat)
    requires WellFormed(spec) && j < |spec.indicators| && spec.indicators[j].window <= |closes|
    requires !Unshadowed(spec.indicators, j)
    ensures CompiledAt(spec, closes, j, spec.indicators[j].window - 1) == None
  {
    hide CompiledAt, RollingMean, Mean, Unshadowed;
    var window := spec.indicators[j].window;
    CompiledAverage(spec, closes, j, window - 1);
    var w :| w >= 2 && CompiledAt(spec, closes, j, window - 1) == RollingMean(Sma(closes, w), window)[window - 1];
    assert Sma(closes, w)[0] == SmaAt(closes, w, 0) == None;
    NullStaysInWindow(Sma(closes, w), window);
  }

  /** On the row of the rise the compiled averages do not say so, when one of them is shadowed. */
  lemma RiseIsMissed(spec: Spec, left: nat, right: nat)
    requires WellFormed(spec) && PlainCrossover(spec) && Compares(spec, left, right)
    requires spec.indicators[left].window < spec.indicators[right].window
    requires !Unshadowed(spec.indicators, left) || !Unshadowed(spec.indicators, right)
    ensures var slow := spec.indicators[right].window;
            var a, b := CompiledAt(spec, Turn(slow), left, slow - 1), CompiledAt(spec, Turn(slow), right, slow - 1);
            a == None || b == None || a.value < b.value
  {
    hide CompiledAt, RollingMean, SmaAt, Turn, Unshadowed;
    var fast, slow := spec.indicators[left].window, spec.indicators[right].window;
    if !Unshadowed(spec.indicators, right) {
      ShadowedIsNull(spec, Turn(slow), right);
    } else {
      CompiledAverage(spec, Turn(slow), right, slow - 1);
      CompiledAverage(spec, Turn(slow), left, slow - 1);
      NamedRise(fast, slow);
      var w :| w >= 2 && CompiledAt(spec, Turn(slow), left, slow - 1) == RollingMean(Sma(Turn(slow), w), fast)[slow - 1];
      AveragedFalls(fast, slow, w);
    }
  }

  /** So the compiled strategy stays out through that row. */
  lemma {:induction false} StaysOut(spec: Spec, left: nat, right: nat, k: nat)
    requires WellFormed(spec) && PlainCrossover(spec) && Compares(spec, left, right)
    requires spec.indicators[left].window < spec.indicators[right].window
    requires !Unshadowed(spec.indicators, left) || !Unshadowed(spec.indicators, right)
    requires k <= spec.indicators[right].window
    ensures var closes := Turn(spec.indicators[right].window);
            && Rectangular(FrameOf(spec, closes), |closes|)
            && Latch(spec, FrameOf(spec, closes), |closes|, k) == 0.0
  {
    hide FrameOf, RowOf, Turn, Unshadowed;
    var slow := spec.indicators[right].window;
    var closes := Turn(slow);
    FrameIsRectangular(spec, closes);
    if k > 0 {
      StaysOut(spec, left, right, k - 1);
      var row := RowOf(FrameOf(spec, closes), |closes|, k - 1);
      assert CompiledAt(spec, closes, left, k - 1) == Lookup(row, spec.entry.left);
      assert CompiledAt(spec, closes, right, k - 1) == Lookup(row, spec.entry.right);
      if k < slow {
        NullBefore(spec, closes, right, k - 1);
      } else {
        RiseIsMissed(spec, left, right);
      }
      assert !Enters(spec, row);
    }
  }

  lemma FrameIsRectangular(spec: Spec, closes: seq<real>)
    requires WellFormed(spec)
    ensures Rectangular(FrameOf(spec, closes), |closes|)
  {
    FrameShape(map["close" := Closes(closes)], spec.indicators, |closes|);
  }

  /** And the automaton enters on it. */
  lemma RiseEnters(spec: Spec, left: nat, right: nat)
    requires WellFormed(spec) && PlainCrossover(spec) && Compares(spec, left, right)
    requires spec.indicators[left].window < spec.indicators[right].window
    ensures var slow := spec.indicators[right].window; Automaton(spec, Turn(slow), slow) == spec.sizing
  {
    hide SmaAt, Turn, AverageRow;
    var fast, slow := spec.indicators[left].window, spec.indicators[right].window;
    NamedRise(fast, slow);
    NamedAverage(spec, Turn(slow), slow - 1, left);
    NamedAverage(spec, Turn(slow), slow - 1, right);
    assert Enters(spec, AverageRow(spec, Turn(slow), slow - 1));
  }

  // ----- When positions are right -----

  lemma CrossoverReads(spec: Spec, left: nat, right: nat)
    requires WellFormed(spec) && PlainCrossover(spec) && Compares(spec, left, right)
    ensures ReadsUnshadowed(spec) <==> Unshadowed(spec.indicators, left) && Unshadowed(spec.indicators, right)
  {
    hide Unshadowed;
    assert Uses(spec, spec.indicators[left].name) && Uses(spec, spec.indicators[right].name);
    forall j | 0 <= j < |spec.indicators| && Uses(spec, spec.indicators[j].name)
      ensures j == left || j == right
    {
      assert spec.indicators[j].name == spec.entry.left || spec.indicators[j].name == spec.entry.right;
    }
  }

  /**
    For every valid crossover strategy without filters: its compiled positions are right on all closes exactly when
    neither of its averages is declared after an indicator named "close". Otherwise `Turn` tells the two apart.
   */
  lemma CrossoverCorrectIff(spec: Spec)
    requires WellFormed(spec) && Problems(spec) == [] && PlainCrossover(spec)
    requires WindowOf(spec.indicators, spec.entry.right) < spec.maxBars
    ensures (forall closes :: |closes| <= spec.maxBars ==> FollowsAutomaton(spec, closes)) <==> ReadsUnshadowed(spec)
  {
    hide Problems, Evaluate, Automaton, Turn, ReadsUnshadowed, Unshadowed, Crossover;
    var left, right := Compared(spec);
    CrossoverReads(spec, left, right);
    if ReadsUnshadowed(spec) {
      forall closes: seq<real> | |closes| <= spec.maxBars
        ensures FollowsAutomaton(spec, closes)
      {
        CompilerCorrect(spec, closes);
      }
    } else {
      var slow := spec.indicators[right].window;
      StaysOut(spec, left, right, slow);
      RiseEnters(spec, left, right);
      EvaluatesToLatch(spec, Turn(slow), slow);
      assert !FollowsAutomaton(spec, Turn(slow));
    }
  }

  lemma EvaluatesToLatch(spec: Spec, closes: seq<real>, k: nat)
    requires WellFormed(spec) && Problems(spec) == [] && k < |closes| <= spec.maxBars
    ensures Rectangular(FrameOf(spec, closes), |closes|)
    ensures var r := Evaluate(spec, closes);
            r.Ok? && |r.value| == |closes| && r.value[k] == Latch(spec, FrameOf(spec, closes), |closes|, k)
  {
    hide Problems, PositionColumn, Latch, FrameOf;
    PositionsFollowLatch(spec, closes, k);
  }
}
