/** How long the default split's periods and the walk-forward steps are. */
module WindowLaws {
  import opened Common
  import opened WalkForward

  /** The largest whole number of days that is no more than this many parts of the whole. */
  predicate IsShare(days: int, part: nat, parts: nat, whole: int) {
    days * parts <= part * whole < (days + 1) * parts
  }

  /** Without a definition: three fifths of the days to train, the next fifth to validate, and the rest to test. */
  lemma DefaultSplit(start: int, end: int)
    requires end - start >= 6
    ensures BuildSplit(start, end, None).Ok?
    ensures var split := BuildSplit(start, end, None).value;
            && split.train.start == start && split.test.end == end
            && split.validation.start == split.train.end && split.test.start == split.validation.end
            && IsShare(split.train.end - start, 3, 5, end - start)
            && IsShare(split.validation.end - start, 4, 5, end - start)
  {
    SplitsAscend(start, end, None);
  }

  /** Why a split is refused: the first thing that is wrong with it. */
  lemma RefusalsExplain(split: Split, start: int, end: int)
    ensures var r := BuildSplit(start, end, Some(split));
            var empty := split.train.end <= split.train.start || split.validation.end <= split.validation.start
                         || split.test.end <= split.test.start;
            var outside := split.train.start < start || end < split.test.end;
            && (r == Err("each temporal split period must have start before end") <==> empty)
            && (r == Err("split periods must stay inside the campaign period") <==> !empty && outside)
            && (r == Err("temporal split periods must not overlap") <==>
                  !empty && !outside
                  && (split.validation.start < split.train.end || split.test.start < split.validation.end))
            && (r.Ok? ==> r.value == split)
    ensures end - start < 6 <==> BuildSplit(start, end, None) == Err("campaign period must span at least 6 days")
  {
    assert |"each temporal split period must have start before end"| == 53;
    assert |"split periods must stay inside the campaign period"| == 50;
    assert |"temporal split periods must not overlap"| == 39;
    assert |"campaign period must span at least 6 days"| == 41;
  }

  /** The step is the largest whole share of the days among one more than the windows, unless the minimum is longer. */
  lemma StepIsShare(total: int, windows: nat, parts: nat, minTest: int)
    requires parts == windows + 1
    ensures var step := Step(total, windows, minTest);
            && step >= minTest
            && (step == minTest || IsShare(step, 1, parts, total))
            && forall days :: IsShare(days, 1, parts, total) ==> days <= step
  {
    var share := total / parts;
    assert share * parts + total % parts == total;
    assert IsShare(share, 1, parts, total) by { NextShare(share, parts); }
    forall days | IsShare(days, 1, parts, total)
      ensures days == share
    {
      OneShare(days, share, parts, total);
    }
  }

  lemma NextShare(share: int, parts: nat)
    ensures (share + 1) * parts == share * parts + parts
  {
  }

  lemma OneShare(a: int, b: int, parts: nat, total: int)
    requires parts > 0 && a * parts <= total < (a + 1) * parts && b * parts <= total < (b + 1) * parts
    ensures a == b
  {
    if a < b { Grows(a + 1, b, parts); }
    if b < a { Grows(b + 1, a, parts); }
  }

  lemma Grows(a: int, b: int, parts: nat)
    requires a <= b
    ensures a * parts <= b * parts
  {
    assert (b - a) * parts >= 0;
  }

  /** Training takes one step, or its minimum when that is longer. */
  lemma SpanIsLonger(total: int, windows: nat, minTrain: int, minTest: int)
    ensures var step, span := Step(total, windows, minTest), Span(total, windows, minTrain, minTest);
            && span >= step && span >= minTrain && (span == step || span == minTrain)
  {
  }
}
