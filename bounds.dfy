/** MucoBounds and MucoVariableInfo: the bounds data model and its
    validation rule (Muscollo/Muscollo/MucoProblem.cpp, lines 31-94). */
module Bounds {
  import opened Outcomes

  /** A closed range [lower, upper], or the unset bound.  The unset bound of
      the source reports NaN for both ends, so every comparison against it is
      false; the predicates below spell that out. */
  datatype Bounds = Unset | Range(lower: real, upper: real) {
    predicate IsSet() { Range? }
  }

  /** MucoBounds(value): the range holding exactly one value. */
  function Fixed(value: real): Bounds { Range(value, value) }

  /** x lies in the range b (never in the unset bound). */
  predicate Contains(b: Bounds, x: real) {
    b.Range? && b.lower <= x <= b.upper
  }

  /** The sub-bound narrows the main bound: nothing to check when either one
      is unset, otherwise neither end may stick out. */
  predicate Within(sub: Bounds, main: Bounds) {
    !sub.IsSet() || !main.IsSet() || (main.lower <= sub.lower && sub.upper <= main.upper)
  }

  /** A named variable with its bounds over the whole trajectory and its
      optional bounds at the initial and final time. */
  datatype VariableInfo = VariableInfo(name: string, bounds: Bounds, initial: Bounds, final: Bounds)

  /** The invariant validate() enforces. */
  predicate IsValid(v: VariableInfo) {
    Within(v.initial, v.bounds) && Within(v.final, v.bounds)
  }

  /** The condition under which validate's check number `k` throws. */
  predicate Violates(v: VariableInfo, k: Violation) {
    match k
    case InitialLowerBelow => v.initial.IsSet() && v.bounds.IsSet() && v.initial.lower < v.bounds.lower
    case FinalLowerBelow => v.final.IsSet() && v.bounds.IsSet() && v.final.lower < v.bounds.lower
    case InitialUpperAbove => v.initial.IsSet() && v.bounds.IsSet() && v.initial.upper > v.bounds.upper
    case FinalUpperAbove => v.final.IsSet() && v.bounds.IsSet() && v.final.upper > v.bounds.upper
  }

  /** Position of a check in validate's sequence of checks. */
  function Rank(k: Violation): nat {
    match k
    case InitialLowerBelow => 0
    case FinalLowerBelow => 1
    case InitialUpperAbove => 2
    case FinalUpperAbove => 3
  }

  /** MucoVariableInfo::validate: passes exactly when both endpoint bounds lie
      inside the main bound; otherwise it throws for the first inequality, in
      source order, that fails. */
  function Validate(v: VariableInfo): (r: Outcome)
    ensures r.Pass? <==> IsValid(v)
    ensures r.Fail? ==> r.error.InvalidBounds? && r.error.variable == v.name
                        && Violates(v, r.error.violation)
                        && forall k :: Rank(k) < Rank(r.error.violation) ==> !Violates(v, k)
  {
    if Violates(v, InitialLowerBelow) then Fail(InvalidBounds(v.name, InitialLowerBelow))
    else if Violates(v, FinalLowerBelow) then Fail(InvalidBounds(v.name, FinalLowerBelow))
    else if Violates(v, InitialUpperAbove) then Fail(InvalidBounds(v.name, InitialUpperAbove))
    else if Violates(v, FinalUpperAbove) then Fail(InvalidBounds(v.name, FinalUpperAbove))
    else Pass
  }

  /** The four-argument MucoVariableInfo constructor: it stores its arguments
      and then calls validate(), so every info it returns is valid. */
  function NewVariableInfo(name: string, bounds: Bounds, initial: Bounds, final: Bounds): (r: Result<VariableInfo>)
    ensures r.Success? <==> IsValid(VariableInfo(name, bounds, initial, final))
    ensures r.Success? ==> r.value == VariableInfo(name, bounds, initial, final) && IsValid(r.value)
    ensures r.Failure? ==> r.error.InvalidBounds? && r.error.variable == name
  {
    var v := VariableInfo(name, bounds, initial, final);
    match Validate(v)
    case Pass => Success(v)
    case Fail(e) => Failure(e)
  }

  /** For a non-empty set sub-bound and a set main bound, the inequalities of
      validate() say exactly that the sub-range is a subset of the main range. */
  lemma {:induction false} WithinIsContainment(sub: Bounds, main: Bounds)
    requires sub.IsSet() && main.IsSet() && sub.lower <= sub.upper
    ensures Within(sub, main) <==> (forall x :: Contains(sub, x) ==> Contains(main, x))
  {
    if forall x :: Contains(sub, x) ==> Contains(main, x) {
      assert Contains(sub, sub.lower);
      assert Contains(sub, sub.upper);
    }
  }

  /** An info whose endpoint bounds equal its main bound always validates (the
      Lagrange-multiplier infos built by MucoPhase::initialize are of this form). */
  lemma SameBoundsAreValid(name: string, b: Bounds)
    ensures NewVariableInfo(name, b, b, b) == Success(VariableInfo(name, b, b, b))
  {
  }
}
