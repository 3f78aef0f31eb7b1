/**
 * The per-element transform record and its serialisation into one CSS
 * transform. The serialisation is a list of segments; turning numbers into
 * text is left to an abstract formatter.
 */
module Transform {
  import opened Wrappers
  import opened Values

  /** The six spatial properties that share the transform record. */
  datatype Field = X | Y | Rotation | Scale | ScaleX | ScaleY

  /** The property name each field is animated under. */
  function FieldName(f: Field): string {
    match f
    case X => "x"
    case Y => "y"
    case Rotation => "rotation"
    case Scale => "scale"
    case ScaleX => "scaleX"
    case ScaleY => "scaleY"
  }

  /** `element._tweenTransform`; a missing record behaves like the empty one. */
  datatype TransformRecord = TransformRecord(
    x: Option<Value>, y: Option<Value>, rotation: Option<Value>,
    scale: Option<Value>, scaleX: Option<Value>, scaleY: Option<Value>)

  const EmptyRecord := TransformRecord(None, None, None, None, None, None)

  function Get(r: TransformRecord, f: Field): Option<Value> {
    match f
    case X => r.x
    case Y => r.y
    case Rotation => r.rotation
    case Scale => r.scale
    case ScaleX => r.scaleX
    case ScaleY => r.scaleY
  }

  /** `current[f] = v`: the field is defined afterwards, the others keep their values. */
  function Set(r: TransformRecord, f: Field, v: Value): (r': TransformRecord)
    ensures Get(r', f) == Some(v)
    ensures forall g :: g != f ==> Get(r', g) == Get(r, g)
  {
    match f
    case X => r.(x := Some(v))
    case Y => r.(y := Some(v))
    case Rotation => r.(rotation := Some(v))
    case Scale => r.(scale := Some(v))
    case ScaleX => r.(scaleX := Some(v))
    case ScaleY => r.(scaleY := Some(v))
  }

  /** `translate(xpx, ypx)`, `rotate(deg)`, `scale(s)` and `scale(sx, sy)`. */
  datatype Segment = Translate(x: Value, y: Value) | Rotate(deg: Value)
                   | ScaleUniform(s: Value) | ScaleAxes(sx: Value, sy: Value)

  /** Position of a segment's group in the fixed output order. */
  function Rank(s: Segment): nat {
    match s
    case Translate(_, _) => 0
    case Rotate(_) => 1
    case ScaleUniform(_) => 2
    case ScaleAxes(_, _) => 2
  }

  /** `buildTransform`: the segments in output order; `trim()` only drops the last separator. */
  function BuildTransform(r: TransformRecord): (segs: seq<Segment>)
    ensures |segs| <= 3 && forall i, j :: 0 <= i < j < |segs| ==> Rank(segs[i]) < Rank(segs[j])
    ensures segs == [] <==> r == EmptyRecord
  {
    (if r.x.Some? || r.y.Some? then [Translate(Or(r.x, Num(0.0)), Or(r.y, Num(0.0)))] else [])
    + (if r.rotation.Some? then [Rotate(r.rotation.value)] else [])
    + (if r.scale.Some? then [ScaleUniform(r.scale.value)]
       else if r.scaleX.Some? || r.scaleY.Some? then [ScaleAxes(Or(r.scaleX, Num(1.0)), Or(r.scaleY, Num(1.0)))]
       else [])
  }

  /** A translation is emitted exactly when x or y is defined; a missing or falsy one becomes 0. */
  lemma BuildTransformTranslate(r: TransformRecord)
    ensures (exists i :: 0 <= i < |BuildTransform(r)| && BuildTransform(r)[i].Translate?)
            <==> r.x.Some? || r.y.Some?
    ensures r.x.Some? || r.y.Some? ==>
              BuildTransform(r)[0] == Translate(Or(r.x, Num(0.0)), Or(r.y, Num(0.0)))
    ensures r.x.None? && r.y.Some? ==> BuildTransform(r)[0].x == Num(0.0)
  {
    var segs := BuildTransform(r);
    if r.x.Some? || r.y.Some? {
      assert segs[0].Translate?;
    } else {
      assert forall i :: 0 <= i < |segs| ==> !segs[i].Translate?;
    }
  }

  /** A defined rotation is emitted as given, right after the translation if any. */
  lemma BuildTransformRotate(r: TransformRecord)
    ensures r.rotation.Some? ==>
              BuildTransform(r)[if r.x.Some? || r.y.Some? then 1 else 0] == Rotate(r.rotation.value)
    ensures r.rotation.None? ==> forall i :: 0 <= i < |BuildTransform(r)| ==> !BuildTransform(r)[i].Rotate?
  {
  }

  /** `scale` takes precedence: when it is defined no two-axis scale is emitted, whatever scaleX and scaleY hold. */
  lemma BuildTransformScalePrecedence(r: TransformRecord)
    requires r.scale.Some?
    ensures BuildTransform(r)[|BuildTransform(r)| - 1] == ScaleUniform(r.scale.value)
    ensures forall i :: 0 <= i < |BuildTransform(r)| ==> !BuildTransform(r)[i].ScaleAxes?
  {
  }

  /** Without `scale`, a defined scaleX or scaleY gives scale(sx, sy) with missing or zero axes read as 1. */
  lemma BuildTransformScaleAxes(r: TransformRecord)
    requires r.scale.None? && (r.scaleX.Some? || r.scaleY.Some?)
    ensures BuildTransform(r)[|BuildTransform(r)| - 1]
            == ScaleAxes(Or(r.scaleX, Num(1.0)), Or(r.scaleY, Num(1.0)))
    ensures r.scaleX == Some(Num(0.0)) ==> BuildTransform(r)[|BuildTransform(r)| - 1].sx == Num(1.0)
  {
  }
}
