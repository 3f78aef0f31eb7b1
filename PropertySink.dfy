/**
 * The property sink: how one named property and its current value become a
 * write on the target element. Spatial properties go through the element's
 * transform record and are written together as one transform; width and
 * height carry a pixel unit; everything else is written as it is.
 */
module PropertySink {
  import opened Wrappers
  import opened Values
  import opened Transform

  /** What ends up in `element.style[key]`; `Pixels(v)` is the text `${v}px`. */
  datatype StyleValue = Raw(v: Value) | Pixels(v: Value) | TransformList(segments: seq<Segment>)

  /** The part of an element the engine writes: its style and its transform record. */
  datatype Surface = Surface(style: map<string, StyleValue>, transform: TransformRecord)

  /** The entries of the property map, plus the fallback for names it lacks. */
  datatype Mapping = Spatial(field: Field) | Length | Passthrough | Unmapped

  /**
   * The property map. The six spatial names are exactly the names of the
   * transform record's fields; width and height are lengths; opacity,
   * backgroundColor and color pass through; every other name is unmapped.
   */
  function MappingOf(name: string): (m: Mapping)
    ensures m.Spatial? ==> FieldName(m.field) == name
    ensures m == Length <==> name == "width" || name == "height"
    ensures m == Passthrough <==> name == "opacity" || name == "backgroundColor" || name == "color"
  {
    if name == "x" then Spatial(X)
    else if name == "y" then Spatial(Y)
    else if name == "rotation" then Spatial(Rotation)
    else if name == "scale" then Spatial(Scale)
    else if name == "scaleX" then Spatial(ScaleX)
    else if name == "scaleY" then Spatial(ScaleY)
    else if name == "width" || name == "height" then Length
    else if name == "opacity" || name == "backgroundColor" || name == "color" then Passthrough
    else Unmapped
  }

  /** Every field's own name maps back to that field. */
  lemma MappingOfFieldName(f: Field)
    ensures MappingOf(FieldName(f)) == Spatial(f)
  {
  }

  /** The style key a property is written under. */
  function StyleKey(name: string): string {
    if MappingOf(name).Spatial? then "transform" else name
  }

  /** The style value written for a property that is not spatial. */
  function Plain(name: string, v: Value): StyleValue {
    if MappingOf(name) == Length then Pixels(v) else Raw(v)
  }

  /** One write: exactly the key `StyleKey(name)` changes, and only spatial names touch the record. */
  function Apply(s: Surface, name: string, v: Value): (r: Surface)
    ensures r.style.Keys == s.style.Keys + {StyleKey(name)}
    ensures forall k :: k in s.style && k != StyleKey(name) ==> r.style[k] == s.style[k]
    ensures !MappingOf(name).Spatial? ==> r.transform == s.transform && r.style[name] == Plain(name, v)
    ensures MappingOf(name).Spatial? ==>
              Get(r.transform, MappingOf(name).field) == Some(v)
              && (forall f :: f != MappingOf(name).field ==> Get(r.transform, f) == Get(s.transform, f))
              && r.style["transform"] == TransformList(BuildTransform(r.transform))
  {
    match MappingOf(name)
    case Spatial(f) =>
      var t := Set(s.transform, f, v);
      Surface(s.style["transform" := TransformList(BuildTransform(t))], t)
    case Length => Surface(s.style[name := Pixels(v)], s.transform)
    case Passthrough => Surface(s.style[name := Raw(v)], s.transform)
    case Unmapped => Surface(s.style[name := Raw(v)], s.transform)
  }

  /** One goal property and its goal value. */
  datatype Goal = Goal(property: string, value: Value)

  /** Goal properties are the keys of one object, so they are distinct. */
  predicate DistinctProperties(goals: seq<Goal>) {
    forall i, j :: 0 <= i < j < |goals| ==> goals[i].property != goals[j].property
  }

  predicate HasStarts(goals: seq<Goal>, starts: map<string, Value>) {
    forall i :: 0 <= i < |goals| ==> goals[i].property in starts
  }

  /** `updateProperties(progress)`: interpolate and write every goal, in goal order. */
  function ApplyGoals(s: Surface, goals: seq<Goal>, starts: map<string, Value>, p: real): (r: Surface)
    requires HasStarts(goals, starts)
    ensures s.style.Keys <= r.style.Keys
    ensures (forall i :: 0 <= i < |goals| ==> !MappingOf(goals[i].property).Spatial?) ==> r.transform == s.transform
    decreases |goals|
  {
    if goals == [] then s
    else
      var g := goals[|goals| - 1];
      Apply(ApplyGoals(s, goals[..|goals| - 1], starts, p), g.property, Interpolate(starts[g.property], g.value, p))
  }

  /** Writing the goals one more step extends the prefix applied so far by that goal's write. */
  lemma ApplyGoalsStep(s: Surface, goals: seq<Goal>, starts: map<string, Value>, p: real, i: nat)
    requires HasStarts(goals, starts) && i < |goals|
    ensures HasStarts(goals[..i + 1], starts)
    ensures var g := goals[i];
            ApplyGoals(s, goals[..i + 1], starts, p)
            == Apply(ApplyGoals(s, goals[..i], starts, p), g.property, Interpolate(starts[g.property], g.value, p))
  {
    assert goals[..i + 1][..i] == goals[..i];
  }

  /** Each non-spatial goal property ends up holding its interpolated value. */
  lemma {:induction false} ApplyGoalsWritesEach(s: Surface, goals: seq<Goal>, starts: map<string, Value>, p: real, k: nat)
    requires DistinctProperties(goals) && HasStarts(goals, starts)
    requires k < |goals| && !MappingOf(goals[k].property).Spatial? && goals[k].property != "transform"
    ensures var name := goals[k].property;
            var r := ApplyGoals(s, goals, starts, p);
            name in r.style && r.style[name] == Plain(name, Interpolate(starts[name], goals[k].value, p))
    decreases |goals|
  {
    var n := |goals| - 1;
    if k < n {
      var front := goals[..n];
      ApplyGoalsWritesEach(s, front, starts, p, k);
      assert StyleKey(goals[n].property) != goals[k].property;
    }
  }

  /** Each spatial goal property ends up in its field of the transform record. */
  lemma {:induction false} ApplyGoalsSetsField(s: Surface, goals: seq<Goal>, starts: map<string, Value>, p: real, k: nat)
    requires DistinctProperties(goals) && HasStarts(goals, starts)
    requires k < |goals| && MappingOf(goals[k].property).Spatial?
    ensures var name := goals[k].property;
            Get(ApplyGoals(s, goals, starts, p).transform, MappingOf(name).field)
            == Some(Interpolate(starts[name], goals[k].value, p))
    decreases |goals|
  {
    var n := |goals| - 1;
    var last := goals[n];
    var before := ApplyGoals(s, goals[..n], starts, p);
    assert ApplyGoals(s, goals, starts, p) == Apply(before, last.property, Interpolate(starts[last.property], last.value, p));
    if k < n {
      ApplyGoalsSetsField(s, goals[..n], starts, p, k);
      assert last.property != goals[k].property;
      assert MappingOf(last.property).Spatial? ==> MappingOf(last.property).field != MappingOf(goals[k].property).field;
    }
  }

  /** With a spatial goal and no goal literally named "transform", the transform written is the serialised record. */
  lemma {:induction false} ApplyGoalsTransformConsistent(s: Surface, goals: seq<Goal>, starts: map<string, Value>, p: real)
    requires HasStarts(goals, starts)
    requires exists i :: 0 <= i < |goals| && MappingOf(goals[i].property).Spatial?
    requires forall i :: 0 <= i < |goals| ==> goals[i].property != "transform"
    ensures var r := ApplyGoals(s, goals, starts, p);
            "transform" in r.style && r.style["transform"] == TransformList(BuildTransform(r.transform))
    decreases |goals|
  {
    var n := |goals| - 1;
    var front := goals[..n];
    if !MappingOf(goals[n].property).Spatial? {
      var i :| 0 <= i < |goals| && MappingOf(goals[i].property).Spatial?;
      assert i < n && front[i] == goals[i];
      ApplyGoalsTransformConsistent(s, front, starts, p);
    }
  }

  /** Style keys that no goal writes keep their previous value. */
  lemma {:induction false} ApplyGoalsLeavesOthers(s: Surface, goals: seq<Goal>, starts: map<string, Value>, p: real, key: string)
    requires HasStarts(goals, starts)
    requires key in s.style
    requires forall i :: 0 <= i < |goals| ==> StyleKey(goals[i].property) != key
    ensures var r := ApplyGoals(s, goals, starts, p);
            key in r.style && r.style[key] == s.style[key]
    decreases |goals|
  {
    if goals != [] {
      ApplyGoalsLeavesOthers(s, goals[..|goals| - 1], starts, p, key);
    }
  }

  /** Record fields that no goal targets keep their values: the record is shared by every tween of the element. */
  lemma {:induction false} ApplyGoalsKeepsFields(s: Surface, goals: seq<Goal>, starts: map<string, Value>, p: real, f: Field)
    requires HasStarts(goals, starts)
    requires forall i :: 0 <= i < |goals| ==> MappingOf(goals[i].property) != Spatial(f)
    ensures Get(ApplyGoals(s, goals, starts, p).transform, f) == Get(s.transform, f)
    decreases |goals|
  {
    if goals != [] {
      ApplyGoalsKeepsFields(s, goals[..|goals| - 1], starts, p, f);
    }
  }

  /** No style key appears that no goal targets. */
  lemma {:induction false} ApplyGoalsAddsOnlyTargets(s: Surface, goals: seq<Goal>, starts: map<string, Value>, p: real, key: string)
    requires HasStarts(goals, starts)
    requires key !in s.style
    requires forall i :: 0 <= i < |goals| ==> StyleKey(goals[i].property) != key
    ensures key !in ApplyGoals(s, goals, starts, p).style
    decreases |goals|
  {
    if goals != [] {
      ApplyGoalsAddsOnlyTargets(s, goals[..|goals| - 1], starts, p, key);
    }
  }

  /** The target element: its style and its attached transform record. */
  class Element {
    var style: map<string, StyleValue>
    var transform: TransformRecord

    constructor (style: map<string, StyleValue>)
      ensures this.style == style && transform == EmptyRecord
    {
      this.style := style;
      transform := EmptyRecord;
    }

    function Snapshot(): Surface
      reads this
    {
      Surface(style, transform)
    }

    /** Runs the property's mapper (or the fallback) and stores the result. */
    method ApplyProperty(name: string, v: Value)
      modifies this
      ensures Snapshot() == Apply(old(Snapshot()), name, v)
    {
      match MappingOf(name)
      case Spatial(f) =>
        transform := Set(transform, f, v);
        style := style["transform" := TransformList(BuildTransform(transform))];
      case Length =>
        style := style[name := Pixels(v)];
      case Passthrough =>
        style := style[name := Raw(v)];
      case Unmapped =>
        style := style[name := Raw(v)];
    }
  }
}
