/**
 * Property values and the value interpolator. A value is either a number
 * (`typeof v === 'number'`) or some other token such as a colour string.
 */
module Values {
  import opened Wrappers
  import opened Arithmetic

  datatype Value = Num(n: real) | Text(s: string)

  /** The values `||` treats as false: 0 and the empty string (NaN is not modelled). */
  predicate Falsy(v: Value) {
    v == Num(0.0) || v == Text("")
  }

  /** `v || fallback` applied to a possibly undefined value. */
  function Or(v: Option<Value>, fallback: Value): (r: Value)
    ensures v.None? ==> r == fallback
    ensures v.Some? && !Falsy(v.value) ==> r == v.value
    ensures v.Some? && Falsy(v.value) ==> r == fallback
  {
    if v.None? || Falsy(v.value) then fallback else v.value
  }

  /**
   * Two numbers are interpolated linearly with the (eased) progress; any other
   * pair holds the start value until the progress reaches 1 and then snaps to
   * the goal.
   */
  function Interpolate(start: Value, goal: Value, progress: real): (r: Value)
    ensures progress == 1.0 ==> r == goal
    ensures start.Num? && goal.Num? ==> r.Num? && (progress == 0.0 ==> r == start)
    ensures !start.Num? || !goal.Num? ==> r == start || r == goal
  {
    if start.Num? && goal.Num? then Num(start.n + (goal.n - start.n) * progress)
    else if progress >= 1.0 then goal
    else start
  }

  /** Numbers: for progress in [0, 1] the value lies between start and goal. */
  lemma InterpolateNumberBetween(start: real, goal: real, p: real)
    requires 0.0 <= p <= 1.0
    ensures var r := Interpolate(Num(start), Num(goal), p).n;
            (start <= goal ==> start <= r <= goal) && (goal <= start ==> goal <= r <= start)
  {
    var d := goal - start;
    if d >= 0.0 {
      ProductNonNegative(d, p);
      ProductNonNegative(d, 1.0 - p);
    } else {
      ProductNonNegative(-d, p);
      ProductNonNegative(-d, 1.0 - p);
    }
    assert d * (1.0 - p) == d - d * p;
    assert (-d) * p == -(d * p);
    assert (-d) * (1.0 - p) == -(d - d * p);
  }

  /** Non-numbers: no intermediate value; start strictly before progress 1, goal from 1 on. */
  lemma InterpolateSnaps(start: Value, goal: Value, p: real)
    requires !start.Num? || !goal.Num?
    ensures Interpolate(start, goal, p) == (if p < 1.0 then start else goal)
  {
  }
}
