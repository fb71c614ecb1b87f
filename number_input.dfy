/** The edit-in-place number widget: an inclusive range check whose bounds
    default to minus and plus infinity, the choice of alert message, and the
    viewing/editing state machine. */
module NumberInput {
  import opened Values

  /** A bound: a number, or one of the two infinities. */
  datatype Bound = NegInfinity | Finite(n: int) | PosInfinity

  /** `a <= b` on bounds and numbers. */
  predicate AtMost(a: Bound, b: Bound) {
    match (a, b)
    case (NegInfinity, _) => true
    case (_, PosInfinity) => true
    case (Finite(x), Finite(y)) => x <= y
    case _ => false
  }

  /** `verifyValue`: `min <= number && number <= max`. */
  predicate VerifyValue(min: Bound, max: Bound, v: int)
    ensures min.Finite? && max.Finite? ==> (VerifyValue(min, max, v) <==> min.n <= v <= max.n)
    ensures min.NegInfinity? && max.PosInfinity? ==> VerifyValue(min, max, v)
    ensures VerifyValue(min, max, v) ==> AtMost(min, max)
  {
    AtMost(min, Finite(v)) && AtMost(Finite(v), max)
  }

  /** The three alert texts, with the bounds they interpolate. */
  datatype RangeAlert =
    | MustBeBetween(min: Bound, max: Bound)
    | MustBeLowerThan(max: Bound)
    | MustBeGreaterThan(min: Bound)

  /** The alert chosen after a rejected value. */
  function AlertFor(min: Bound, max: Bound): (a: RangeAlert)
    ensures a.MustBeBetween? <==> min != NegInfinity && max != PosInfinity
    ensures a.MustBeLowerThan? <==> min == NegInfinity
    ensures a.MustBeGreaterThan? <==> min != NegInfinity && max == PosInfinity
    ensures a == MustBeBetween(min, max) || a == MustBeLowerThan(max) || a == MustBeGreaterThan(min)
  {
    if min != NegInfinity && max != PosInfinity then MustBeBetween(min, max)
    else if min == NegInfinity then MustBeLowerThan(max)
    else MustBeGreaterThan(min)
  }

  /** With finite bounds, the check is the inclusive interval `[lo, hi]`. */
  lemma FiniteRange(lo: int, hi: int, v: int)
    ensures VerifyValue(Finite(lo), Finite(hi), v) <==> lo <= v <= hi
  {
  }

  /** With the default bounds every number passes. */
  lemma DefaultBoundsAcceptAll(v: int)
    ensures VerifyValue(NegInfinity, PosInfinity, v)
  {
  }

  /** A one-sided message names the side the rejected value violated: "lower
      than max" only when it exceeds the maximum, "greater than min" only when
      it is below the minimum. */
  lemma {:induction false} AlertNamesViolatedBound(min: Bound, max: Bound, v: int)
    requires !VerifyValue(min, max, v)
    ensures AlertFor(min, max).MustBeLowerThan? ==> !AtMost(Finite(v), max)
    ensures AlertFor(min, max).MustBeGreaterThan? ==> !AtMost(min, Finite(v))
  {
    if AlertFor(min, max).MustBeLowerThan? {
      assert min == NegInfinity && AtMost(min, Finite(v));
    }
    if AlertFor(min, max).MustBeGreaterThan? {
      assert max == PosInfinity && AtMost(Finite(v), max);
    }
  }

  /** One `NumberInput` instance. `input` is the number in the input element
      that `inputRef` points to, `None` while the ref is `null`. */
  class NumberField {
    var initValue: int
    const min: Bound
    const max: Bound
    var editing: bool
    var input: Option<int>
    var saved: seq<int>
    var alerts: seq<RangeAlert>

    /** The input element exists while editing, and every number saved so
        far passed the range check. */
    ghost predicate Valid()
      reads this
    {
      && (editing ==> input.Some?)
      && forall i :: 0 <= i < |saved| ==> VerifyValue(min, max, saved[i])
    }

    /** A widget with bounds `min` and `max`; pass `NegInfinity` and
        `PosInfinity` for an omitted bound. */
    constructor (initValue: int, min: Bound, max: Bound)
      ensures Valid()
      ensures this.initValue == initValue && this.min == min && this.max == max
      ensures !editing && input == None && saved == [] && alerts == []
    {
      this.initValue := initValue;
      this.min := min;
      this.max := max;
      editing := false;
      input := None;
      saved := [];
      alerts := [];
    }

    /** The user enters a number. */
    method Type(v: int)
      requires Valid() && editing
      modifies this`input
      ensures Valid() && input == Some(v)
    {
      input := Some(v);
    }

    /** `handleButtonClick`: a value in range leaves edit mode and is saved
        once; a value out of range keeps edit mode and raises the alert that
        `AlertFor` chooses; a click while viewing only enters edit mode. */
    method Click()
      requires Valid()
      modifies this`editing, this`input, this`saved, this`alerts
      ensures Valid() && initValue == old(initValue)
      ensures old(editing) && VerifyValue(min, max, old(input).value) ==>
        && !editing && input == old(input)
        && saved == old(saved) + [old(input).value] && alerts == old(alerts)
      ensures old(editing) && !VerifyValue(min, max, old(input).value) ==>
        && editing && input == old(input)
        && saved == old(saved) && alerts == old(alerts) + [AlertFor(min, max)]
      ensures !old(editing) ==>
        && editing && input == Some(initValue)
        && saved == old(saved) && alerts == old(alerts)
    {
      if editing {
        if VerifyValue(min, max, input.value) {
          editing := false;
          saved := saved + [input.value];
        } else {
          alerts := alerts + [AlertFor(min, max)];
        }
      } else {
        editing := true;
        input := Some(initValue);
      }
    }

    /** A later render after the input element has unmounted. */
    method Rerender(newInitValue: int)
      requires Valid()
      modifies this`input, this`initValue
      ensures Valid() && initValue == newInitValue
      ensures input == if editing then old(input) else None
    {
      initValue := newInitValue;
      if !editing {
        input := None;
      }
    }

    /** The number shown while viewing. */
    function Shown(): (r: int)
      reads this
      requires !editing
      ensures input.None? ==> r == initValue
      ensures input.Some? ==> r == input.value
    {
      input.GetOr(initValue)
    }
  }

  /** A client: one edit of `v` in a widget bounded by `[lo, hi]`. */
  method EditSession(init: int, lo: int, hi: int, v: int) returns (saved: seq<int>, alerts: seq<RangeAlert>)
    ensures lo <= v <= hi ==> saved == [v] && alerts == []
    ensures !(lo <= v <= hi) ==> saved == [] && alerts == [MustBeBetween(Finite(lo), Finite(hi))]
  {
    var w := new NumberField(init, Finite(lo), Finite(hi));
    w.Click();
    w.Type(v);
    w.Click();
    saved, alerts := w.saved, w.alerts;
  }
}
