/** When a condition fires or fails on a row with nulls, said without the three truth values that compute it. */
module ConditionMeaning {
  import opened Common
  import opened StrategyDsl
  import opened DslCompiler

  /** What an operator asks of the left value's distance above the right one. */
  predicate Asks(op: Operator, distance: real) {
    match op
    case Gt => distance > 0.0
    case Gte => !(distance < 0.0)
    case Lt => distance < 0.0
    case Lte => !(distance > 0.0)
  }

  predicate Known(row: Row, name: string) { name in row && row[name].Some? }

  /** The row is enough to say that the condition holds: one part of an `any`, every part of an `all`. */
  predicate Fires(c: Condition, row: Row) {
    match c
    case Comparison(left, op, right) =>
      Known(row, left) && Known(row, right) && Asks(op, row[left].value - row[right].value)
    case Logical(all, parts) =>
      if all then forall i :: 0 <= i < |parts| ==> Fires(parts[i], row)
      else exists i :: 0 <= i < |parts| && Fires(parts[i], row)
  }

  /** The row is enough to say that it does not hold: every part of an `any`, one part of an `all`. */
  predicate Fails(c: Condition, row: Row) {
    match c
    case Comparison(left, op, right) =>
      Known(row, left) && Known(row, right) && !Asks(op, row[left].value - row[right].value)
    case Logical(all, parts) =>
      if all then exists i :: 0 <= i < |parts| && Fails(parts[i], row)
      else forall i :: 0 <= i < |parts| ==> Fails(parts[i], row)
  }

  /** Some part has this truth value on the row. */
  predicate AnyIs(parts: seq<Condition>, row: Row, t: Truth)
    requires forall i :: 0 <= i < |parts| ==> Shaped(parts[i])
  {
    exists i :: 0 <= i < |parts| && Eval(parts[i], row) == t
  }

  /** Every part has this truth value on the row. */
  predicate AllAre(parts: seq<Condition>, row: Row, t: Truth)
    requires forall i :: 0 <= i < |parts| ==> Shaped(parts[i])
  {
    forall i :: 0 <= i < |parts| ==> Eval(parts[i], row) == t
  }

  lemma LastPart(parts: seq<Condition>, row: Row, t: Truth)
    requires |parts| >= 1 && forall i :: 0 <= i < |parts| ==> Shaped(parts[i])
    ensures var n := |parts| - 1;
            && (AnyIs(parts, row, t) <==> AnyIs(parts[..n], row, t) || Eval(parts[n], row) == t)
            && (AllAre(parts, row, t) <==> AllAre(parts[..n], row, t) && Eval(parts[n], row) == t)
  {
    hide Eval;
    var front := parts[..|parts| - 1];
    assert forall i :: 0 <= i < |front| ==> front[i] == parts[i];
    if AnyIs(front, row, t) {
      var i :| 0 <= i < |front| && Eval(front[i], row) == t;
      assert Eval(parts[i], row) == t;
    }
  }

  /** The fold over the parts decides as all of them, or any of them, do. */
  lemma {:induction false} PartsDecide(all: bool, parts: seq<Condition>, row: Row)
    requires |parts| >= 1 && forall i :: 0 <= i < |parts| ==> Shaped(parts[i])
    ensures EvalParts(all, parts, row) == Yes <==> if all then AllAre(parts, row, Yes) else AnyIs(parts, row, Yes)
    ensures EvalParts(all, parts, row) == No <==> if all then AnyIs(parts, row, No) else AllAre(parts, row, No)
  {
    hide Eval, AnyIs, AllAre;
    LastPart(parts, row, Yes);
    LastPart(parts, row, No);
    if |parts| > 1 {
      PartsDecide(all, parts[..|parts| - 1], row);
    } else {
      NoPart(row, Yes);
      NoPart(row, No);
      assert parts[..0] == [];
    }
  }

  lemma NoPart(row: Row, t: Truth)
    ensures !AnyIs([], row, t) && AllAre([], row, t)
  {
  }

  /** The compiled condition is true exactly when it fires, and false exactly when it fails. */
  lemma {:induction false} ConditionDecides(c: Condition, row: Row)
    requires Shaped(c)
    ensures Eval(c, row) == Yes <==> Fires(c, row)
    ensures Eval(c, row) == No <==> Fails(c, row)
  {
    if c.Logical? {
      PartsDecide(c.all, c.parts, row);
      forall i | 0 <= i < |c.parts|
        ensures Eval(c.parts[i], row) == Yes <==> Fires(c.parts[i], row)
        ensures Eval(c.parts[i], row) == No <==> Fails(c.parts[i], row)
      {
        ConditionDecides(c.parts[i], row);
      }
    }
  }

  /** Every filter has to fire. */
  lemma {:induction false} FiltersDecide(filters: seq<Condition>, row: Row)
    requires forall i :: 0 <= i < |filters| ==> Shaped(filters[i])
    ensures Allowed(filters, row) == Yes <==> forall i :: 0 <= i < |filters| ==> Fires(filters[i], row)
  {
    hide Fires;
    if filters != [] {
      FiltersDecide(filters[..|filters| - 1], row);
      ConditionDecides(filters[|filters| - 1], row);
    }
  }

  predicate EntryFires(spec: Spec, row: Row) {
    Fires(spec.entry, row) && forall i :: 0 <= i < |spec.filters| ==> Fires(spec.filters[i], row)
  }

  predicate ExitFires(spec: Spec, row: Row) { Fires(spec.exit, row) }

  /** A row enters when the entry and every filter fire, and asks to leave when the exit does. */
  lemma RulesDecide(spec: Spec, row: Row)
    requires WellFormed(spec)
    ensures Enters(spec, row) <==> EntryFires(spec, row)
    ensures Exits(spec, row) <==> ExitFires(spec, row)
  {
    hide Fires;
    ConditionDecides(spec.entry, row);
    ConditionDecides(spec.exit, row);
    FiltersDecide(spec.filters, row);
  }

  /** With every average known, a condition is decided, and `Fires` is its ordinary meaning. */
  lemma {:induction false} KnownRowsDecide(c: Condition, row: Row)
    requires Shaped(c) && forall name :: Reads(c, name) ==> Known(row, name)
    ensures Fails(c, row) <==> !Fires(c, row)
    ensures Eval(c, row) == if Fires(c, row) then Yes else No
  {
    ConditionDecides(c, row);
    if c.Logical? {
      forall i | 0 <= i < |c.parts|
        ensures Fails(c.parts[i], row) <==> !Fires(c.parts[i], row)
      {
        assert forall name :: Reads(c.parts[i], name) ==> Reads(c, name);
        KnownRowsDecide(c.parts[i], row);
      }
    } else {
      assert Reads(c, c.left) && Reads(c, c.right);
    }
  }
}
