/** Temporal splits and walk-forward windows over day numbers, and why the locked test period stays untouched. */
module WalkForward {
  import opened Common

  datatype Period = Period(start: int, end: int)

  datatype Split = Split(train: Period, validation: Period, test: Period)

  datatype Window = Window(trainStart: int, trainEnd: int, testStart: int, testEnd: int)

  // ----- Splits -----

  function ValidateSplit(split: Split, start: int, end: int): Result<Split, string> {
    if split.train.start >= split.train.end || split.validation.start >= split.validation.end
       || split.test.start >= split.test.end
    then Err("each temporal split period must have start before end")
    else if split.train.start < start || split.test.end > end
    then Err("split periods must stay inside the campaign period")
    else if !(split.train.end <= split.validation.start && split.validation.end <= split.test.start)
    then Err("temporal split periods must not overlap")
    else Ok(split)
  }

  /** Without a definition the period is cut at six and eight tenths, in whole days. */
  function BuildSplit(start: int, end: int, definition: Option<Split>): Result<Split, string> {
    if definition.Some? then ValidateSplit(definition.value, start, end)
    else if end - start < 6 then Err("campaign period must span at least 6 days")
    else
      var days := end - start;
      var trainEnd := start + MaxInt(2, days * 3 / 5);
      var validationEnd := start + MaxInt(4, days * 4 / 5);
      ValidateSplit(Split(Period(start, trainEnd), Period(trainEnd, validationEnd), Period(validationEnd, end)), start, end)
  }

  /** The boundaries of the three periods ascend, without overlap, inside the campaign. */
  predicate Ascending(split: Split, start: int, end: int) {
    && start <= split.train.start < split.train.end <= split.validation.start < split.validation.end
    && split.validation.end <= split.test.start < split.test.end <= end
  }

  /** A supplied split is accepted exactly when it ascends; the default exactly when the campaign has six days. */
  lemma SplitsAscend(start: int, end: int, definition: Option<Split>)
    ensures var r := BuildSplit(start, end, definition);
            && (r.Ok? ==> Ascending(r.value, start, end))
            && (definition.Some? ==> (r.Ok? <==> Ascending(definition.value, start, end)))
            && (definition == None ==> (r.Ok? <==> end - start >= 6))
            && (definition == None && r.Ok? ==>
                  && r.value.train.start == start && r.value.test.end == end
                  && r.value.train.end == r.value.validation.start && r.value.validation.end == r.value.test.start)
  {
  }

  // ----- Windows -----

  function Step(total: int, windows: nat, minTest: int): int { MaxInt(minTest, total / (windows + 1)) }

  function Span(total: int, windows: nat, minTrain: int, minTest: int): int {
    MaxInt(minTrain, Step(total, windows, minTest))
  }

  function WindowAt(start: int, index: nat, step: int, span: int): Window {
    var trainStart := start + index * step;
    Window(trainStart, trainStart + span, trainStart + span, trainStart + span + step)
  }

  predicate Kept(w: Window, end: int) { w.trainStart < w.trainEnd < w.testEnd <= end }

  /** The windows among the first `count` that fit. */
  function Fitting(start: int, end: int, step: int, span: int, count: nat): seq<Window>
  {
    if count == 0 then []
    else
      var w := WindowAt(start, count - 1, step, span);
      Fitting(start, end, step, span, count - 1) + if Kept(w, end) then [w] else []
  }

  function Windows(start: int, end: int, windows: nat, minTrain: int, minTest: int): seq<Window> {
    var total := end - start;
    if total < minTrain + minTest then []
    else Fitting(start, end, Step(total, windows, minTest), Span(total, windows, minTrain, minTest), windows)
  }

  method BuildWindows(start: int, end: int, windows: nat, minTrain: int, minTest: int) returns (result: seq<Window>)
    ensures result == Windows(start, end, windows, minTrain, minTest)
  {
    var totalDays := end - start;
    if totalDays < minTrain + minTest { return []; }
    var step := MaxInt(minTest, totalDays / (windows + 1));
    var trainSpan := MaxInt(minTrain, step);
    result := [];
    for index := 0 to windows
      invariant result == Fitting(start, end, step, trainSpan, index)
    {
      var trainStart := start + index * step;
      var trainEnd := trainStart + trainSpan;
      var testEnd := trainEnd + step;
      if trainStart < trainEnd < testEnd <= end {
        result := result + [Window(trainStart, trainEnd, trainEnd, testEnd)];
      }
    }
  }

  // ----- What the windows are -----

  /** How many windows fit: as many whole steps as there are after the first training span, up to the number asked for. */
  function WindowCount(total: int, windows: nat, step: int, span: int): nat {
    if step <= 0 || total < span + step then 0 else MinInt(windows, (total - span) / step)
  }

  lemma FitsExactly(start: int, end: int, step: int, span: int, index: nat)
    requires span >= step
    ensures Kept(WindowAt(start, index, step, span), end) <==>
            step > 0 && index * step + step + span <= end - start
    ensures step > 0 ==> (index * step + step + span <= end - start <==> index + 1 <= (end - start - span) / step)
  {
    if step > 0 {
      WholeSteps(end - start - span, step, index + 1);
      assert (index + 1) * step == index * step + step;
    }
  }

  lemma WholeSteps(x: int, step: int, n: nat)
    requires step > 0
    ensures n * step <= x <==> n <= x / step
  {
    var q := x / step;
    assert x == q * step + x % step;
    if n <= q {
      assert n * step <= q * step;
    } else {
      assert n * step >= (q + 1) * step;
    }
  }

  /** The kept windows are an initial run of the candidate windows. */
  lemma {:induction false} KeptIsInitialRun(start: int, end: int, step: int, span: int, count: nat)
    requires span >= step
    ensures var r := Fitting(start, end, step, span, count);
            && |r| == WindowCount(end - start, count, step, span)
            && forall i :: 0 <= i < |r| ==> r[i] == WindowAt(start, i, step, span) && Kept(r[i], end)
  {
    if count > 0 {
      KeptIsInitialRun(start, end, step, span, count - 1);
      FitsExactly(start, end, step, span, count - 1);
      hide WindowAt, Kept;
      CountGrows(end - start, count, step, span);
    }
  }

  lemma CountGrows(total: int, count: nat, step: int, span: int)
    requires count > 0
    ensures WindowCount(total, count, step, span)
            == WindowCount(total, count - 1, step, span)
               + if step > 0 && count <= (total - span) / step then 1 else 0
  {
    if step > 0 {
      WholeSteps(total - span, step, 1);
      if total < span {
        assert (total - span) / step <= 0;
      }
    }
  }

  /** Each window trains strictly before it tests, inside the span; the test intervals tile; and how many there are. */
  lemma WindowsTile(start: int, end: int, windows: nat, minTrain: int, minTest: int)
    ensures var r := Windows(start, end, windows, minTrain, minTest);
            var step, span := Step(end - start, windows, minTest), Span(end - start, windows, minTrain, minTest);
            && (forall i :: 0 <= i < |r| ==>
                  && start <= r[i].trainStart < r[i].trainEnd == r[i].testStart < r[i].testEnd <= end
                  && r[i].trainEnd - r[i].trainStart == span >= minTrain
                  && r[i].testEnd - r[i].testStart == step >= minTest)
            && (forall i :: 0 <= i < |r| - 1 ==> r[i].testEnd == r[i + 1].testStart)
            && (|r| > 0 ==> r[0].trainStart == start)
            && |r| == if end - start < minTrain + minTest then 0 else WindowCount(end - start, windows, step, span)
  {
    var step, span := Step(end - start, windows, minTest), Span(end - start, windows, minTrain, minTest);
    KeptIsInitialRun(start, end, step, span, windows);
    var r := Windows(start, end, windows, minTrain, minTest);
    hide Fitting, Windows, WindowCount, Step, Span;
    forall i | 0 <= i < |r|
      ensures start <= r[i].trainStart
    {
      if i > 0 { assert i * step >= 0; }
    }
    forall i | 0 <= i < |r| - 1
      ensures r[i].testEnd == r[i + 1].testStart
    {
      assert (i + 1) * step == i * step + step;
    }
  }

  /** A window exists exactly when one is asked for and a training span and one step fit. */
  lemma WindowExists(start: int, end: int, windows: nat, minTrain: int, minTest: int)
    requires end - start >= minTrain + minTest
    ensures var step, span := Step(end - start, windows, minTest), Span(end - start, windows, minTrain, minTest);
            Windows(start, end, windows, minTrain, minTest) != []
            <==> windows > 0 && step > 0 && span + step <= end - start
    ensures minTrain == minTest > 0 && windows > 0 ==> Windows(start, end, windows, minTrain, minTest) != []
  {
    hide Fitting, WindowAt, Kept, Step, Span;
    var total := end - start;
    var step, span := Step(total, windows, minTest), Span(total, windows, minTrain, minTest);
    SpanCoversStep(total, windows, minTrain, minTest);
    KeptIsInitialRun(start, end, step, span, windows);
    if step > 0 {
      WholeSteps(total - span, step, 1);
    }
    if minTrain == minTest > 0 && windows > 0 {
      EqualMinimumsFit(total, windows, minTest);
    }
  }

  lemma SpanCoversStep(total: int, windows: nat, minTrain: int, minTest: int)
    ensures Span(total, windows, minTrain, minTest) >= Step(total, windows, minTest)
  {
  }

  lemma EqualMinimumsFit(total: int, windows: nat, minimum: int)
    requires minimum > 0 && windows > 0 && total >= 2 * minimum
    ensures var step := Step(total, windows, minimum);
            step > 0 && Span(total, windows, minimum, minimum) == step && step + step <= total
  {
    HalfAtMost(total, windows + 1);
  }

  lemma HalfAtMost(total: int, parts: nat)
    requires total >= 0 && parts >= 2
    ensures 2 * (total / parts) <= total
  {
    var q := total / parts;
    assert q * parts <= total;
    assert q * parts == 2 * q + q * (parts - 2);
  }

  /** With a longer training minimum, windows can be missing although both minimum lengths fit in the span. */
  lemma LongTrainingCanLeaveNoWindow(start: int)
    ensures Windows(start, start + 10, 3, 9, 1) == []
  {
    WindowExists(start, start + 10, 3, 9, 1);
  }

  /**
    For every accepted split, supplied or default, every walk-forward window of the campaign ends before the locked
    test period starts, and when two minimum windows fit before the end of validation there is at least one.
   */
  lemma TestPeriodIsUntouched(start: int, end: int, definition: Option<Split>, longWindow: int)
    requires BuildSplit(start, end, definition).Ok? && longWindow >= 0
    ensures var split := BuildSplit(start, end, definition).value;
            var r := Windows(start, split.validation.end, 3, longWindow + 1, longWindow + 1);
            && (forall i :: 0 <= i < |r| ==> r[i].trainStart < r[i].testStart < r[i].testEnd <= split.test.start < split.test.end)
            && (2 * (longWindow + 1) <= split.validation.end - start <==> r != [])
  {
    SplitsAscend(start, end, definition);
    var split := BuildSplit(start, end, definition).value;
    hide BuildSplit, Windows;
    WindowsTile(start, split.validation.end, 3, longWindow + 1, longWindow + 1);
    if 2 * (longWindow + 1) <= split.validation.end - start {
      WindowExists(start, split.validation.end, 3, longWindow + 1, longWindow + 1);
    }
  }
}
