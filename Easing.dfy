/**
 * The easing library: curves that map linear progress to eased progress.
 * Numbers are exact reals; the two trigonometric Sine curves are supplied by
 * the host (`SineCurve`) and are not interpreted here.
 */
module Easing {
  import opened Wrappers
  import opened Arithmetic

  datatype Style = Linear | Quad | Sine | Bounce | Back
  datatype Direction = In | Out | InOut

  /** The host's Math.sin/Math.cos based Sine curves, left uninterpreted. */
  type SineCurve = (Direction, real) -> real

  /** Own keys of the easing table. */
  function StyleNamed(name: string): Option<Style> {
    if name == "Linear" then Some(Linear)
    else if name == "Quad" then Some(Quad)
    else if name == "Sine" then Some(Sine)
    else if name == "Bounce" then Some(Bounce)
    else if name == "Back" then Some(Back)
    else None
  }

  /** Own keys of each style's sub-table. */
  function DirectionNamed(name: string): Option<Direction> {
    if name == "In" then Some(In)
    else if name == "Out" then Some(Out)
    else if name == "InOut" then Some(InOut)
    else None
  }

  function Square(x: real): real { x * x }
  function Cube(x: real): real { x * x * x }

  function QuadIn(t: real): real { t * t }

  /** Quad.Out is Quad.In turned about the point (0.5, 0.5). */
  function QuadOut(t: real): (r: real)
    ensures r == 1.0 - QuadIn(1.0 - t)
  {
    t * (2.0 - t)
  }

  /** The two branches of Quad.InOut, below and from 0.5. */
  function QuadInOutLow(t: real): real { 2.0 * t * t }
  function QuadInOutHigh(t: real): real { -1.0 + (4.0 - 2.0 * t) * t }

  /** Quad.InOut runs Quad.In over the first half and its mirror image over the second. */
  function QuadInOut(t: real): (r: real)
    ensures t < 0.5 ==> r == QuadIn(2.0 * t) / 2.0
    ensures t >= 0.5 ==> r == 1.0 - QuadIn(2.0 - 2.0 * t) / 2.0
  {
    if t < 0.5 then QuadInOutLow(t) else QuadInOutHigh(t)
  }

  /** Four parabolic arcs; 7.5625 = 121/16 and the breakpoints are 4/11, 8/11, 10/11. */
  function BounceOut(t: real): real {
    if t < 1.0 / 2.75 then 7.5625 * t * t
    else if t < 2.0 / 2.75 then 7.5625 * Square(t - 1.5 / 2.75) + 0.75
    else if t < 2.5 / 2.75 then 7.5625 * Square(t - 2.25 / 2.75) + 0.9375
    else 7.5625 * Square(t - 2.625 / 2.75) + 0.984375
  }
  function BounceIn(t: real): real { 1.0 - BounceOut(1.0 - t) }
  function BounceInOutLow(t: real): real { BounceIn(t * 2.0) * 0.5 }
  function BounceInOutHigh(t: real): real { BounceOut(t * 2.0 - 1.0) * 0.5 + 0.5 }
  function BounceInOut(t: real): real {
    if t < 0.5 then BounceInOutLow(t) else BounceInOutHigh(t)
  }

  function BackIn(t: real): real { 2.7 * t * t * t - 1.7 * t * t }

  /** Back.Out is Back.In turned about the point (0.5, 0.5). */
  function BackOut(t: real): (r: real)
    ensures r == 1.0 - BackIn(1.0 - t)
  {
    1.0 + 2.7 * Cube(t - 1.0) + 1.7 * Square(t - 1.0)
  }

  function BackInOutLow(t: real): real { (Square(2.0 * t) * (3.6 * 2.0 * t - 2.6)) / 2.0 }
  function BackInOutHigh(t: real): real { (Square(2.0 * t - 2.0) * (3.6 * (2.0 * t - 2.0) + 2.6) + 2.0) / 2.0 }
  function BackInOut(t: real): real {
    if t < 0.5 then BackInOutLow(t) else BackInOutHigh(t)
  }

  /**
   * The table entry for a style and a direction: Linear is the identity,
   * Sine is the host's curve, and every exactly stated curve maps 0 to 0 and
   * 1 to 1.
   */
  function Curve(style: Style, dir: Direction, t: real, sine: SineCurve): (r: real)
    ensures style == Linear ==> r == t
    ensures style == Sine ==> r == sine(dir, t)
    ensures style != Sine && t == 0.0 ==> r == 0.0
    ensures style != Sine && t == 1.0 ==> r == 1.0
  {
    match style
    case Linear => t
    case Quad => (match dir case In => QuadIn(t) case Out => QuadOut(t) case InOut => QuadInOut(t))
    case Sine => sine(dir, t)
    case Bounce => (match dir case In => BounceIn(t) case Out => BounceOut(t) case InOut => BounceInOut(t))
    case Back => (match dir case In => BackIn(t) case Out => BackOut(t) case InOut => BackInOut(t))
  }

  /**
   * Looks the pair up by name and applies it; a pair with no entry leaves the
   * progress unchanged.
   */
  function Ease(styleName: string, dirName: string, t: real, sine: SineCurve): (r: real)
    ensures StyleNamed(styleName).None? || DirectionNamed(dirName).None? ==> r == t
    ensures StyleNamed(styleName).Some? && DirectionNamed(dirName).Some? ==>
              r == Curve(StyleNamed(styleName).value, DirectionNamed(dirName).value, t, sine)
  {
    match (StyleNamed(styleName), DirectionNamed(dirName))
    case (Some(s), Some(d)) => Curve(s, d, t, sine)
    case _ => t
  }

  /** Lookups by name fix 0 and 1 as well, including the pass-through of unknown pairs. */
  lemma EaseFixesEndpoints(styleName: string, dirName: string, sine: SineCurve)
    requires StyleNamed(styleName) != Some(Sine)
    ensures Ease(styleName, dirName, 0.0, sine) == 0.0
    ensures Ease(styleName, dirName, 1.0, sine) == 1.0
  {
  }

  /** Every exactly stated InOut curve passes through (0.5, 0.5). */
  lemma InOutMeetsAtMidpoint(style: Style, sine: SineCurve)
    requires style != Sine
    ensures Curve(style, InOut, 0.5, sine) == 0.5
  {
    match style
    case Linear =>
    case Quad => QuadHalvesMeet();
    case Bounce => BounceHalvesMeet();
    case Back => BackHalvesMeet();
  }

  /** Both branches of Quad.InOut reach (0.5, 0.5), so the halves meet. */
  lemma QuadHalvesMeet()
    ensures QuadInOutLow(0.5) == 0.5 && QuadInOutHigh(0.5) == 0.5
  {
  }

  /** Both branches of Bounce.InOut reach (0.5, 0.5), so the halves meet. */
  lemma BounceHalvesMeet()
    ensures BounceInOutLow(0.5) == 0.5 && BounceInOutHigh(0.5) == 0.5
  {
    assert BounceOut(0.0) == 0.0;
  }

  /** Both branches of Back.InOut reach (0.5, 0.5), so the halves meet. */
  lemma BackHalvesMeet()
    ensures BackInOutLow(0.5) == 0.5 && BackInOutHigh(0.5) == 0.5
  {
    assert Square(1.0) == 1.0 && Square(-1.0) == 1.0;
  }

  /** Every exactly stated InOut curve is symmetric about (0.5, 0.5): InOut(t) + InOut(1 - t) == 1. */
  lemma InOutSymmetric(style: Style, t: real, sine: SineCurve)
    requires style != Sine
    ensures Curve(style, InOut, t, sine) + Curve(style, InOut, 1.0 - t, sine) == 1.0
  {
    if t == 0.5 {
      InOutMeetsAtMidpoint(style, sine);
    } else {
      var lo, hi := if t < 0.5 then t else 1.0 - t, if t < 0.5 then 1.0 - t else t;
      assert lo < 0.5 && hi > 0.5 && lo == 1.0 - hi;
      match style
      case Linear =>
      case Quad =>
        assert QuadInOutLow(lo) + QuadInOutHigh(hi) == 1.0;
      case Bounce =>
        assert lo * 2.0 == 1.0 - (hi * 2.0 - 1.0);
        assert BounceInOutLow(lo) + BounceInOutHigh(hi) == 1.0;
      case Back =>
        assert 2.0 * lo == -(2.0 * hi - 2.0);
        assert Square(2.0 * lo) == Square(2.0 * hi - 2.0);
        assert BackInOutLow(lo) + BackInOutHigh(hi) == 1.0;
    }
  }

  /** Linear and Quad never decrease on [0, 1]. */
  lemma QuadIsMonotone(dir: Direction, t1: real, t2: real, sine: SineCurve)
    requires 0.0 <= t1 <= t2 <= 1.0
    ensures Curve(Quad, dir, t1, sine) <= Curve(Quad, dir, t2, sine)
    ensures Curve(Linear, dir, t1, sine) <= Curve(Linear, dir, t2, sine)
  {
    var d := t2 - t1;
    match dir
    case In =>
      assert QuadIn(t2) - QuadIn(t1) == d * (t1 + t2);
      ProductNonNegative(d, t1 + t2);
    case Out =>
      assert QuadOut(t2) - QuadOut(t1) == d * (2.0 - t1 - t2);
      ProductNonNegative(d, 2.0 - t1 - t2);
    case InOut =>
      QuadInOutMonotone(t1, t2);
  }

  /** Quad.InOut: two parabolic halves that meet at (0.5, 0.5), each increasing on its half. */
  lemma QuadInOutMonotone(t1: real, t2: real)
    requires 0.0 <= t1 <= t2 <= 1.0
    ensures QuadInOut(t1) <= QuadInOut(t2)
  {
    var d := t2 - t1;
    if t2 < 0.5 {
      assert QuadInOut(t2) - QuadInOut(t1) == 2.0 * d * (t1 + t2);
      ProductNonNegative(d, t1 + t2);
    } else if t1 >= 0.5 {
      assert QuadInOut(t2) - QuadInOut(t1) == d * (4.0 - 2.0 * (t1 + t2));
      ProductNonNegative(d, 4.0 - 2.0 * (t1 + t2));
    } else {
      assert QuadInOut(t1) <= 0.5 by {
        assert 0.5 - QuadInOut(t1) == 2.0 * ((0.5 - t1) * (0.5 + t1));
        ProductNonNegative(0.5 - t1, 0.5 + t1);
      }
      assert QuadInOut(t2) >= 0.5 by {
        assert QuadInOut(t2) - 0.5 == (t2 - 0.5) * (3.0 - 2.0 * t2);
        ProductNonNegative(t2 - 0.5, 3.0 - 2.0 * t2);
      }
    }
  }

  /** Bounce.Out never leaves [0, 1] on [0, 1]: its arcs touch 1 and never exceed it. */
  lemma BounceOutStaysInUnitRange(t: real)
    requires 0.0 <= t <= 1.0
    ensures 0.0 <= BounceOut(t) <= 1.0
  {
    if t < 1.0 / 2.75 {
      assert 7.5625 * t * t <= 7.5625 * t * (1.0 / 2.75);
    } else if t < 2.0 / 2.75 {
      var u := t - 1.5 / 2.75;
      assert -2.0 / 11.0 <= u < 2.0 / 11.0;
      SquareBelow(u, 2.0 / 11.0);
    } else if t < 2.5 / 2.75 {
      var u := t - 2.25 / 2.75;
      assert -1.0 / 11.0 <= u < 1.0 / 11.0;
      SquareBelow(u, 1.0 / 11.0);
    } else {
      var u := t - 2.625 / 2.75;
      assert -1.0 / 22.0 <= u <= 1.0 / 22.0;
      SquareBelow(u, 1.0 / 22.0);
    }
  }

  /** Back overshoots: Back.In dips below 0 inside the unit interval. */
  lemma BackUndershootsZero(sine: SineCurve)
    ensures Curve(Back, In, 0.5, sine) < 0.0
  {
  }
}
