/**
 * The animation engine proper: tween configuration, the `Tween` object with
 * its playback methods and per-frame update, and the shared frame scheduler.
 * The clock is the `now` parameter (milliseconds); one scheduler tick is one
 * run of the frame callback.
 */
module Engine {
  import opened Wrappers
  import opened Values
  import opened Transform
  import opened PropertySink
  import opened Events
  import opened Playback
  import Easing

  // ---- configuration ----

  /** The `tweenInfo` object as given: every field may be missing. */
  datatype TweenInfoIn = TweenInfoIn(
    duration: Option<real>, easingStyle: Option<string>, easingDirection: Option<string>,
    repeatCount: Option<int>, reverses: Option<bool>, delayTime: Option<real>)

  /** The stored configuration; duration and delay are in seconds. */
  datatype TweenInfo = TweenInfo(
    duration: real, easingStyle: string, easingDirection: string,
    repeatCount: int, reverses: bool, delayTime: real)

  /** `o || fallback` for a field whose one falsy value is `zero` (0 for numbers, "" for strings). */
  function OrDefault<T(==)>(o: Option<T>, zero: T, fallback: T): T {
    if o.None? || o.value == zero then fallback else o.value
  }

  /** The constructor's `||` defaults: duration 1, Quad, Out, no repeat, no reverse, no delay. */
  function Normalize(i: TweenInfoIn): (r: TweenInfo)
    ensures r.duration != 0.0 && r.easingStyle != "" && r.easingDirection != ""
    ensures i.duration.Some? && i.duration.value != 0.0 ==> r.duration == i.duration.value
    ensures i.delayTime.Some? ==> r.delayTime == i.delayTime.value
    ensures i.easingStyle.Some? && i.easingStyle.value != "" ==> r.easingStyle == i.easingStyle.value
    ensures i.easingDirection.Some? && i.easingDirection.value != "" ==> r.easingDirection == i.easingDirection.value
    ensures i.duration.None? || i.duration.value == 0.0 ==> r.duration == 1.0
    ensures i.easingStyle.None? || i.easingStyle.value == "" ==> r.easingStyle == "Quad"
    ensures i.easingDirection.None? || i.easingDirection.value == "" ==> r.easingDirection == "Out"
    ensures i.repeatCount.None? ==> r.repeatCount == 0
    ensures i.repeatCount.Some? ==> r.repeatCount == i.repeatCount.value
    ensures i.reverses.None? ==> !r.reverses
    ensures i.reverses.Some? ==> r.reverses == i.reverses.value
    ensures i.delayTime.None? ==> r.delayTime == 0.0
  {
    TweenInfo(
      OrDefault(i.duration, 0.0, 1.0),
      OrDefault(i.easingStyle, "", "Quad"),
      OrDefault(i.easingDirection, "", "Out"),
      if i.repeatCount.None? then 0 else i.repeatCount.value,
      if i.reverses.None? then false else i.reverses.value,
      OrDefault(i.delayTime, 0.0, 0.0))
  }

  const NoInfo := TweenInfoIn(None, None, None, None, None, None)

  /** An empty configuration gives the documented defaults. */
  lemma NoInfoGivesDefaults()
    ensures Normalize(NoInfo) == TweenInfo(1.0, "Quad", "Out", 0, false, 0.0)
  {
  }

  /** Feeding a stored configuration back in changes nothing. */
  lemma NormalizeIdempotent(i: TweenInfoIn)
    ensures var r := Normalize(i);
            Normalize(TweenInfoIn(Some(r.duration), Some(r.easingStyle), Some(r.easingDirection),
                                  Some(r.repeatCount), Some(r.reverses), Some(r.delayTime))) == r
  {
  }

  // ---- start values ----

  /** What the host reports for a property: offset size, parsed opacity, or the computed style. */
  type HostRead = string -> Value

  /**
   * `setupStartValues` for one property. A transform record field that is
   * undefined, 0 or "" starts from 0 (from 1 for the three scales); opacity
   * falls back to 1 and other styles to ""; width and height are read as they are.
   */
  function StartValue(name: string, record: TransformRecord, read: HostRead): (r: Value)
    ensures MappingOf(name).Spatial? ==>
              var v := Get(record, MappingOf(name).field);
              (v.Some? && !Falsy(v.value) ==> r == v.value)
              && (v.None? || Falsy(v.value) ==>
                    r == if MappingOf(name).field in {Scale, ScaleX, ScaleY} then Num(1.0) else Num(0.0))
    ensures name == "opacity" ==> r == if Falsy(read(name)) then Num(1.0) else read(name)
    ensures name == "width" || name == "height" ==> r == read(name)
    ensures !MappingOf(name).Spatial? && name !in {"opacity", "width", "height"} ==>
              r == if Falsy(read(name)) then Text("") else read(name)
  {
    match MappingOf(name)
    case Spatial(f) =>
      Or(Get(record, f), if f == Scale || f == ScaleX || f == ScaleY then Num(1.0) else Num(0.0))
    case _ =>
      if name == "opacity" then Or(Some(read(name)), Num(1.0))
      else if name == "width" || name == "height" then read(name)
      else Or(Some(read(name)), Text(""))
  }

  function Names(goals: seq<Goal>): set<string> {
    set g | g in goals :: g.property
  }

  /** Start values are captured once, for exactly the goal properties. */
  function StartValues(goals: seq<Goal>, record: TransformRecord, read: HostRead): (m: map<string, Value>)
    ensures m.Keys == Names(goals)
    ensures HasStarts(goals, m)
  {
    map name | name in Names(goals) :: StartValue(name, record, read)
  }

  // ---- the scheduler's filter ----

  /** The entries of `s` whose flag in `keep` is true, in their original order. */
  function Select<T>(s: seq<T>, keep: seq<bool>): (r: seq<T>)
    requires |s| == |keep|
    ensures |r| <= |s|
    ensures (forall i :: 0 <= i < |s| ==> keep[i]) ==> r == s
  {
    if s == [] then []
    else Select(s[..|s| - 1], keep[..|s| - 1]) + (if keep[|s| - 1] then [s[|s| - 1]] else [])
  }

  /** Selection distributes over concatenation: relative order is kept. */
  lemma {:induction false} SelectAppend<T>(a: seq<T>, ka: seq<bool>, b: seq<T>, kb: seq<bool>)
    requires |a| == |ka| && |b| == |kb|
    ensures Select(a + b, ka + kb) == Select(a, ka) + Select(b, kb)
    decreases |b|
  {
    if b != [] {
      var n := |b| - 1;
      assert (a + b)[..|a + b| - 1] == a + b[..n];
      assert (ka + kb)[..|ka + kb| - 1] == ka + kb[..n];
      SelectAppend(a, ka, b[..n], kb[..n]);
      assert (a + b)[|a + b| - 1] == b[n] && (ka + kb)[|ka + kb| - 1] == kb[n];
    }
    else {
      assert a + b == a && ka + kb == ka;
    }
  }

  /** An entry survives exactly when its own flag is set. */
  lemma {:induction false} SelectMembers<T>(s: seq<T>, keep: seq<bool>, x: T)
    requires |s| == |keep|
    ensures x in Select(s, keep) <==> exists i :: 0 <= i < |s| && keep[i] && s[i] == x
  {
    if s != [] {
      var n := |s| - 1;
      SelectMembers(s[..n], keep[..n], x);
      if x in Select(s[..n], keep[..n]) {
        var i :| 0 <= i < n && keep[..n][i] && s[..n][i] == x;
        assert keep[i] && s[i] == x;
      }
    }
  }

  /** The selection is empty exactly when no flag is set. */
  lemma {:induction false} SelectEmpty<T>(s: seq<T>, keep: seq<bool>)
    requires |s| == |keep|
    ensures Select(s, keep) == [] <==> forall i :: 0 <= i < |s| ==> !keep[i]
  {
    if s != [] {
      var n := |s| - 1;
      SelectEmpty(s[..n], keep[..n]);
      if Select(s, keep) == [] {
        forall i | 0 <= i < |s| ensures !keep[i] {
          if i < n { assert keep[..n][i] == keep[i]; }
        }
      }
    }
  }

  /** The entry at index i repeats an earlier one. */
  predicate SeenBefore<T(==)>(s: seq<T>, i: nat)
    requires i < |s|
  {
    s[i] in s[..i]
  }

  function Elements(ts: seq<Tween>): set<Element> {
    set t | t in ts :: t.element
  }

  /** One `fire` of one of the tween's events: the signal and the callbacks it invoked. */
  datatype Firing = Firing(signal: Signal, invoked: seq<CallbackId>)

  class Tween {
    const element: Element
    const info: TweenInfo
    const goals: seq<Goal>
    const startValues: map<string, Value>
    var playbackState: PlaybackState
    var startTime: real
    var pausedTime: real
    /** Stored and never read, like `repeatCount` and `reverses`. */
    var currentRepeat: int
    const completed: TweenEvent
    const paused: TweenEvent
    const resumed: TweenEvent
    const stepped: TweenEvent
    /** Every event fired so far, in order. */
    var fired: seq<Firing>

    ghost predicate Valid() {
      DurationMs() != 0.0 && DistinctProperties(goals) && HasStarts(goals, startValues)
    }

    function Timing(): Timing
      reads this
    {
      Playback.Timing(playbackState, startTime, pausedTime)
    }

    function DurationMs(): real { info.duration * 1000.0 }
    function DelayMs(): real { info.delayTime * 1000.0 }

    predicate IsPlaying() reads this { playbackState == Playing }
    predicate IsPaused() reads this { playbackState == Paused }

    /**
     * The state `new Tween(element, tweenInfo, goalProperties)` leaves: the
     * normalised configuration, the goals and their captured start values,
     * state Begin with both times 0, no repeat, no event fired, and four valid
     * channels with no connections.
     */
    ghost predicate Built(element: Element, tweenInfo: TweenInfoIn, goalProperties: seq<Goal>, read: HostRead)
      reads this, element, completed, paused, resumed, stepped
      reads completed.connections, paused.connections, resumed.connections, stepped.connections
    {
      Valid()
      && this.element == element && info == Normalize(tweenInfo) && goals == goalProperties
      && startValues == StartValues(goalProperties, element.transform, read)
      && Timing() == Initial && currentRepeat == 0 && fired == []
      && completed.Valid() && paused.Valid() && resumed.Valid() && stepped.Valid()
      && completed.connections == paused.connections == resumed.connections == stepped.connections == []
    }

    constructor (element: Element, tweenInfo: TweenInfoIn, goalProperties: seq<Goal>, read: HostRead)
      requires DistinctProperties(goalProperties)
      ensures Built(element, tweenInfo, goalProperties, read)
      ensures fresh(completed) && fresh(paused) && fresh(resumed) && fresh(stepped)
    {
      this.element := element;
      info := Normalize(tweenInfo);
      goals := goalProperties;
      playbackState := Begin;
      startTime := 0.0;
      pausedTime := 0.0;
      currentRepeat := 0;
      completed := new TweenEvent();
      paused := new TweenEvent();
      resumed := new TweenEvent();
      stepped := new TweenEvent();
      fired := [];
      startValues := StartValues(goalProperties, element.transform, read);
    }

    method Play(now: real, sched: Scheduler)
      requires Valid() && sched.Valid()
      modifies this, sched
      ensures sched.Valid() && currentRepeat == old(currentRepeat)
      ensures var tr := Playback.Play(old(Timing()), now, DelayMs());
              Timing() == tr.after
              && (tr.enqueued ==> sched.activeTweens == old(sched.activeTweens) + [this] && sched.isRunning)
              && (!tr.enqueued ==> unchanged(sched))
              && fired == old(fired) + (if tr.signals == [] then [] else [Firing(OnResumed, resumed.Listeners())])
    {
      if playbackState == Playing {
        return;
      }
      playbackState := Playing;
      startTime := now + DelayMs();
      sched.AddActiveTween(this);
      if pausedTime > 0.0 {
        var invoked := resumed.Fire();
        fired := fired + [Firing(OnResumed, invoked)];
      }
    }

    method Pause(now: real)
      modifies this
      ensures currentRepeat == old(currentRepeat)
      ensures var tr := Playback.Pause(old(Timing()), now);
              Timing() == tr.after
              && fired == old(fired) + (if tr.signals == [] then [] else [Firing(OnPaused, paused.Listeners())])
    {
      if playbackState != Playing {
        return;
      }
      playbackState := Paused;
      pausedTime := now;
      var invoked := paused.Fire();
      fired := fired + [Firing(OnPaused, invoked)];
    }

    method Cancel()
      modifies this
      ensures Timing() == Playback.Cancel(old(Timing())).after
      ensures fired == old(fired) && currentRepeat == old(currentRepeat)
    {
      playbackState := Cancelled;
    }

    method Resume(now: real, sched: Scheduler)
      requires Valid() && sched.Valid()
      modifies this, sched
      ensures sched.Valid() && currentRepeat == old(currentRepeat)
      ensures var tr := Playback.Resume(old(Timing()), now, DelayMs());
              Timing() == tr.after
              && (tr.enqueued ==> sched.activeTweens == old(sched.activeTweens) + [this] && sched.isRunning)
              && (!tr.enqueued ==> unchanged(sched))
              && fired == old(fired)
    {
      if playbackState != Paused {
        return;
      }
      var pauseDuration := now - pausedTime;
      startTime := startTime + pauseDuration;
      pausedTime := 0.0;
      Play(now, sched);
    }

    /** One frame: returns whether the tween stays in the scheduler's list. */
    method Update(now: real, sine: Easing.SineCurve) returns (keep: bool)
      requires Valid()
      modifies this, element
      ensures currentRepeat == old(currentRepeat)
      ensures var f := Advance(old(Timing()), now, DurationMs());
              Timing() == f.after && keep == f.keep
              && (f.progress.None? ==> element.Snapshot() == old(element.Snapshot()) && fired == old(fired))
              && (f.progress.Some? ==>
                    var eased := Easing.Ease(info.easingStyle, info.easingDirection, f.progress.value, sine);
                    element.Snapshot() == ApplyGoals(old(element.Snapshot()), goals, startValues, eased)
                    && fired == old(fired) + [Firing(OnStepped(eased), stepped.Listeners())]
                                + (if f.keep then [] else [Firing(OnCompleted, completed.Listeners())]))
    {
      if playbackState != Playing {
        return playbackState != Cancelled;
      }
      if now < startTime {
        return true;
      }
      keep := Run(now, sine);
    }

    /** The running branch of `update`: write the goals, fire `stepped`, and complete when the time is up. */
    method Run(now: real, sine: Easing.SineCurve) returns (keep: bool)
      requires Valid() && playbackState == Playing && now >= startTime
      modifies this, element
      ensures currentRepeat == old(currentRepeat)
      ensures var f := Advance(old(Timing()), now, DurationMs());
              Timing() == f.after && keep == f.keep && f.progress.Some?
              && var eased := Easing.Ease(info.easingStyle, info.easingDirection, f.progress.value, sine);
                 element.Snapshot() == ApplyGoals(old(element.Snapshot()), goals, startValues, eased)
                 && fired == old(fired) + [Firing(OnStepped(eased), stepped.Listeners())]
                                + (if f.keep then [] else [Firing(OnCompleted, completed.Listeners())])
    {
      var elapsed := now - startTime;
      var duration := info.duration * 1000.0;
      var progress := Min(elapsed / duration, 1.0);
      assert Advance(Timing(), now, DurationMs()) == Frame(
        if elapsed >= duration then Timing().(state := Completed) else Timing(), elapsed < duration, Some(progress));
      progress := Easing.Ease(info.easingStyle, info.easingDirection, progress, sine);
      UpdateProperties(progress);
      var invoked := stepped.Fire();
      fired := fired + [Firing(OnStepped(progress), invoked)];
      if elapsed >= duration {
        HandleCompletion();
        return false;
      }
      return true;
    }

    /** Interpolates every goal at the given progress and writes it through the property sink. */
    method UpdateProperties(progress: real)
      requires Valid()
      modifies element
      ensures element.Snapshot() == ApplyGoals(old(element.Snapshot()), goals, startValues, progress)
    {
      ghost var before := element.Snapshot();
      var i := 0;
      while i < |goals|
        invariant 0 <= i <= |goals|
        invariant HasStarts(goals[..i], startValues)
        invariant element.Snapshot() == ApplyGoals(before, goals[..i], startValues, progress)
      {
        var property := goals[i].property;
        var startValue := startValues[property];
        var currentValue := Interpolate(startValue, goals[i].value, progress);
        element.ApplyProperty(property, currentValue);
        ApplyGoalsStep(before, goals, startValues, progress, i);
        i := i + 1;
      }
      assert goals[..i] == goals;
    }

    method HandleCompletion()
      modifies this
      ensures Timing() == old(Timing()).(state := Completed)
      ensures fired == old(fired) + [Firing(OnCompleted, completed.Listeners())]
      ensures currentRepeat == old(currentRepeat)
    {
      playbackState := Completed;
      var invoked := completed.Fire();
      fired := fired + [Firing(OnCompleted, invoked)];
    }
  }

  /** `TweenFramework.create`. */
  method Create(element: Element, tweenInfo: TweenInfoIn, goalProperties: seq<Goal>, read: HostRead) returns (t: Tween)
    requires DistinctProperties(goalProperties)
    ensures fresh(t) && t.Built(element, tweenInfo, goalProperties, read)
    ensures fresh(t.completed) && fresh(t.paused) && fresh(t.resumed) && fresh(t.stepped)
  {
    t := new Tween(element, tweenInfo, goalProperties, read);
  }

  /** `TweenFramework.to`: only a duration (default 1 second), everything else defaulted. */
  method To(element: Element, goalProperties: seq<Goal>, read: HostRead, duration: real := 1.0) returns (t: Tween)
    requires DistinctProperties(goalProperties)
    ensures fresh(t) && t.Built(element, NoInfo.(duration := Some(duration)), goalProperties, read)
    ensures fresh(t.completed) && fresh(t.paused) && fresh(t.resumed) && fresh(t.stepped)
  {
    t := new Tween(element, NoInfo.(duration := Some(duration)), goalProperties, read);
  }

  /** The shared frame scheduler: the ordered active list and the running flag. */
  class Scheduler {
    var activeTweens: seq<Tween>
    var isRunning: bool
    /** A `requestAnimationFrame(loop)` is outstanding. */
    var framePending: bool

    /** Running means exactly one frame is requested, and every listed tween is well formed. */
    ghost predicate Consistent()
      reads this
    {
      framePending == isRunning
      && forall i :: 0 <= i < |activeTweens| ==> activeTweens[i].Valid()
    }

    /** Besides, an idle scheduler has no tweens. */
    ghost predicate Valid()
      reads this
    {
      Consistent() && (!isRunning ==> activeTweens == [])
    }

    constructor ()
      ensures Valid() && activeTweens == [] && !isRunning
    {
      activeTweens := [];
      isRunning := false;
      framePending := false;
    }

    /** Requests the first frame unless the loop is already running. */
    method StartAnimationLoop()
      requires Consistent()
      modifies this
      ensures Valid() && isRunning && activeTweens == old(activeTweens)
      ensures old(isRunning) ==> unchanged(this)
      ensures !old(isRunning) ==> framePending
    {
      if isRunning {
        return;
      }
      isRunning := true;
      framePending := true;
    }

    /** Appends the tween, without looking for an earlier entry, and starts the loop. */
    method AddActiveTween(t: Tween)
      requires Valid() && t.Valid()
      modifies this
      ensures Valid() && isRunning
      ensures activeTweens == old(activeTweens) + [t]
    {
      activeTweens := activeTweens + [t];
      StartAnimationLoop();
    }

    /**
     * One run of the frame callback: updates every listed tween in order,
     * keeps those whose update returned true, and goes idle when none is left.
     */
    method Tick(now: real, sine: Easing.SineCurve) returns (keep: seq<bool>)
      requires Valid() && framePending
      modifies this, activeTweens, Elements(activeTweens)
      ensures Valid()
      ensures var s := old(activeTweens);
              |keep| == |s| && activeTweens == Select(s, keep)
              && isRunning == (activeTweens != [])
              && (forall i :: 0 <= i < |s| ==> s[i].Timing() == Advance(old(s[i].Timing()), now, s[i].DurationMs()).after)
              && (forall i :: 0 <= i < |s| ==> TimingStep(old(s[i].Timing()), s[i].Timing()))
              && (forall i :: 0 <= i < |s| ==> Settled(s[i].Timing(), now, s[i].DurationMs()))
              && (forall i :: 0 <= i < |s| && !SeenBefore(s, i) ==>
                    keep[i] == Advance(old(s[i].Timing()), now, s[i].DurationMs()).keep)
              && (forall i :: 0 <= i < |s| && SeenBefore(s, i) ==> keep[i] == (s[i].Timing().state != Cancelled))
    {
      framePending := false;
      var snapshot := activeTweens;
      ghost var initial := TimingsOf(snapshot);
      var kept;
      keep, kept := UpdateAll(snapshot, initial, now, sine);
      activeTweens := kept;
      if |kept| > 0 {
        framePending := true;
      } else {
        isRunning := false;
      }
    }
  }

  /**
   * The loop of a tick: updates the tweens of a snapshot of the list in
   * order and collects, in the same order, those whose update returned true.
   */
  method UpdateAll(s: seq<Tween>, ghost initial: seq<Timing>, now: real, sine: Easing.SineCurve)
    returns (keep: seq<bool>, kept: seq<Tween>)
    requires forall m :: 0 <= m < |s| ==> s[m].Valid()
    requires |initial| == |s| && forall m :: 0 <= m < |s| ==> initial[m] == s[m].Timing()
    modifies s, Elements(s)
    ensures |keep| == |s| && kept == Select(s, keep)
    ensures forall m :: 0 <= m < |kept| ==> kept[m].Valid()
    ensures forall m :: 0 <= m < |s| ==> s[m].DurationMs() != 0.0
    ensures Progressed(s, initial, TimingsOf(s), |s|, keep, now)
  {
    keep := [];
    var i := 0;
    while i < |s|
      invariant 0 <= i <= |s| && |keep| == i
      invariant forall k :: 0 <= k < |s| ==> s[k].DurationMs() != 0.0
      invariant Progressed(s, initial, TimingsOf(s), i, keep, now)
    {
      assert s[i].element in Elements(s);
      var k := VisitEntry(s, initial, i, keep, now, sine);
      keep := keep + [k];
      i := i + 1;
    }
    kept := Select(s, keep);
    forall m | 0 <= m < |kept|
      ensures kept[m].Valid()
    {
      SelectMembers(s, keep, kept[m]);
    }
  }

  /** The timing of each tween of a list, in list order. */
  function TimingsOf(ts: seq<Tween>): (r: seq<Timing>)
    reads ts
    ensures |r| == |ts| && forall m :: 0 <= m < |ts| ==> r[m] == ts[m].Timing()
  {
    if ts == [] then [] else TimingsOf(ts[..|ts| - 1]) + [ts[|ts| - 1].Timing()]
  }

  // ---- what a tick has done after its first i updates ----
  // `initial` holds the timings at the start of the tick and `cur` the
  // timings now, entry by entry.

  /** Timings only ever went from Playing to Completed. */
  ghost predicate OnlyCompletes(initial: seq<Timing>, cur: seq<Timing>)
    requires |initial| == |cur|
  {
    forall m :: 0 <= m < |cur| ==> TimingStep(initial[m], cur[m])
  }

  /** Every visited entry is settled for `now`. */
  ghost predicate SettledBefore(s: seq<Tween>, cur: seq<Timing>, i: nat, now: real)
    requires |cur| == |s| && i <= |s|
  {
    forall m :: 0 <= m < i ==> Settled(cur[m], now, s[m].DurationMs())
  }

  /** Tweens not visited yet still have their timing from the start of the tick. */
  ghost predicate UntouchedFrom(s: seq<Tween>, initial: seq<Timing>, cur: seq<Timing>, i: nat)
    requires |initial| == |s| && |cur| == |s| && i <= |s|
  {
    forall m :: i <= m < |s| && s[m] !in s[..i] ==> cur[m] == initial[m]
  }

  /** A first occurrence was kept as its timing at the start of the tick decided. */
  ghost predicate FirstVerdicts(s: seq<Tween>, initial: seq<Timing>, i: nat, keep: seq<bool>, now: real)
    requires |initial| == |s| && i <= |s| && |keep| == i
    requires forall m :: 0 <= m < |s| ==> s[m].DurationMs() != 0.0
  {
    forall m :: 0 <= m < i && !SeenBefore(s, m) ==> keep[m] == Advance(initial[m], now, s[m].DurationMs()).keep
  }

  /** A repeated entry was kept exactly when its tween is not Cancelled. */
  ghost predicate RepeatVerdicts(s: seq<Tween>, cur: seq<Timing>, i: nat, keep: seq<bool>)
    requires |cur| == |s| && i <= |s| && |keep| == i
  {
    forall m :: 0 <= m < i && SeenBefore(s, m) ==> keep[m] == (cur[m].state != Cancelled)
  }

  /** Every visited entry holds the timing `Advance` computes from its timing at the start of the tick. */
  ghost predicate AdvancedBefore(s: seq<Tween>, initial: seq<Timing>, cur: seq<Timing>, i: nat, now: real)
    requires |initial| == |s| && |cur| == |s| && i <= |s|
    requires forall m :: 0 <= m < |s| ==> s[m].DurationMs() != 0.0
  {
    forall m :: 0 <= m < i ==> cur[m] == Advance(initial[m], now, s[m].DurationMs()).after
  }

  ghost predicate Progressed(s: seq<Tween>, initial: seq<Timing>, cur: seq<Timing>, i: nat, keep: seq<bool>, now: real)
    requires |initial| == |s| && |cur| == |s| && i <= |s| && |keep| == i
    requires forall m :: 0 <= m < |s| ==> s[m].DurationMs() != 0.0
  {
    SameTweenSameTiming(s, initial)
    && OnlyCompletes(initial, cur) && SettledBefore(s, cur, i, now) && UntouchedFrom(s, initial, cur, i)
    && FirstVerdicts(s, initial, i, keep, now) && RepeatVerdicts(s, cur, i, keep)
    && AdvancedBefore(s, initial, cur, i, now)
  }

  /** Entries that are the same tween have the same timing. */
  ghost predicate SameTweenSameTiming(s: seq<Tween>, cur: seq<Timing>)
    requires |cur| == |s|
  {
    forall a, b :: 0 <= a < |s| && 0 <= b < |s| && s[a] == s[b] ==> cur[a] == cur[b]
  }

  /** Updating entry i gives every entry of that tween the timing `Advance` computes. */
  ghost predicate UpdatedAt(s: seq<Tween>, pre: seq<Timing>, post: seq<Timing>, i: nat, now: real)
    requires |pre| == |s| && |post| == |s| && i < |s| && s[i].DurationMs() != 0.0
  {
    forall m :: 0 <= m < |s| ==>
      post[m] == if s[m] == s[i] then Advance(pre[i], now, s[i].DurationMs()).after else pre[m]
  }

  /** Updating entry i and recording its verdict extends the tick's progress by one entry. */
  lemma ProgressedStep(s: seq<Tween>, initial: seq<Timing>, pre: seq<Timing>, post: seq<Timing>,
                       i: nat, keep: seq<bool>, k: bool, now: real)
    requires |initial| == |s| && |pre| == |s| && |post| == |s| && i < |s| && |keep| == i
    requires forall m :: 0 <= m < |s| ==> s[m].DurationMs() != 0.0
    requires SameTweenSameTiming(s, pre) && UpdatedAt(s, pre, post, i, now)
    requires Progressed(s, initial, pre, i, keep, now)
    requires k == Advance(pre[i], now, s[i].DurationMs()).keep
    ensures Progressed(s, initial, post, i + 1, keep + [k], now)
  {
    StepOnlyCompletes(s, initial, pre, post, i, now);
    StepSettled(s, pre, post, i, now);
    StepUntouched(s, initial, pre, post, i, now);
    StepFirstVerdicts(s, initial, pre, i, keep, k, now);
    StepRepeatVerdicts(s, pre, post, i, keep, k, now);
    StepAdvanced(s, initial, pre, post, i, now);
  }

  /** A repeated entry meets a tween that is already settled: its update changes nothing. */
  lemma RepeatIsStable(s: seq<Tween>, pre: seq<Timing>, i: nat, now: real)
    requires |pre| == |s| && i < |s| && s[i].DurationMs() != 0.0
    requires SameTweenSameTiming(s, pre) && SettledBefore(s, pre, i, now) && SeenBefore(s, i)
    ensures Advance(pre[i], now, s[i].DurationMs()).after == pre[i]
    ensures Advance(pre[i], now, s[i].DurationMs()).keep == (pre[i].state != Cancelled)
  {
    var j :| 0 <= j < i && s[j] == s[i];
    assert pre[j] == pre[i];
    AdvanceSettledIsStable(pre[i], now, s[i].DurationMs());
  }

  lemma StepOnlyCompletes(s: seq<Tween>, initial: seq<Timing>, pre: seq<Timing>, post: seq<Timing>, i: nat, now: real)
    requires |initial| == |s| && |pre| == |s| && |post| == |s| && i < |s| && s[i].DurationMs() != 0.0
    requires SameTweenSameTiming(s, pre) && UpdatedAt(s, pre, post, i, now)
    requires OnlyCompletes(initial, pre) && SettledBefore(s, pre, i, now) && UntouchedFrom(s, initial, pre, i)
    ensures OnlyCompletes(initial, post)
  {
    if SeenBefore(s, i) {
      RepeatIsStable(s, pre, i, now);
      assert forall m :: 0 <= m < |s| ==> post[m] == pre[m];
    } else {
      forall m | 0 <= m < |s| && s[m] == s[i]
        ensures initial[m] == pre[i]
      {
        assert s[m] !in s[..i];
        assert pre[m] == pre[i];
      }
    }
  }

  lemma StepSettled(s: seq<Tween>, pre: seq<Timing>, post: seq<Timing>, i: nat, now: real)
    requires |pre| == |s| && |post| == |s| && i < |s| && s[i].DurationMs() != 0.0
    requires UpdatedAt(s, pre, post, i, now) && SettledBefore(s, pre, i, now)
    ensures SettledBefore(s, post, i + 1, now)
  {
  }

  lemma StepUntouched(s: seq<Tween>, initial: seq<Timing>, pre: seq<Timing>, post: seq<Timing>, i: nat, now: real)
    requires |initial| == |s| && |pre| == |s| && |post| == |s| && i < |s| && s[i].DurationMs() != 0.0
    requires UpdatedAt(s, pre, post, i, now) && UntouchedFrom(s, initial, pre, i)
    ensures UntouchedFrom(s, initial, post, i + 1)
  {
    assert s[..i + 1] == s[..i] + [s[i]];
  }

  lemma StepFirstVerdicts(s: seq<Tween>, initial: seq<Timing>, pre: seq<Timing>, i: nat, keep: seq<bool>, k: bool, now: real)
    requires |initial| == |s| && |pre| == |s| && i < |s| && |keep| == i
    requires forall m :: 0 <= m < |s| ==> s[m].DurationMs() != 0.0
    requires FirstVerdicts(s, initial, i, keep, now) && UntouchedFrom(s, initial, pre, i)
    requires k == Advance(pre[i], now, s[i].DurationMs()).keep
    ensures FirstVerdicts(s, initial, i + 1, keep + [k], now)
  {
    var keep' := keep + [k];
    assert forall m :: 0 <= m < i ==> keep'[m] == keep[m];
  }

  lemma StepRepeatVerdicts(s: seq<Tween>, pre: seq<Timing>, post: seq<Timing>, i: nat, keep: seq<bool>, k: bool, now: real)
    requires |pre| == |s| && |post| == |s| && i < |s| && |keep| == i && s[i].DurationMs() != 0.0
    requires SameTweenSameTiming(s, pre) && UpdatedAt(s, pre, post, i, now)
    requires SettledBefore(s, pre, i, now) && RepeatVerdicts(s, pre, i, keep)
    requires k == Advance(pre[i], now, s[i].DurationMs()).keep
    ensures RepeatVerdicts(s, post, i + 1, keep + [k])
  {
    var keep' := keep + [k];
    assert forall m :: 0 <= m < i ==> keep'[m] == keep[m];
    if SeenBefore(s, i) {
      RepeatIsStable(s, pre, i, now);
      assert forall m :: 0 <= m < |s| ==> post[m] == pre[m];
    } else {
      forall m | 0 <= m < i
        ensures post[m] == pre[m]
      {
        assert s[m] in s[..i];
      }
    }
  }

  lemma StepAdvanced(s: seq<Tween>, initial: seq<Timing>, pre: seq<Timing>, post: seq<Timing>, i: nat, now: real)
    requires |initial| == |s| && |pre| == |s| && |post| == |s| && i < |s|
    requires forall m :: 0 <= m < |s| ==> s[m].DurationMs() != 0.0
    requires SameTweenSameTiming(s, initial) && SameTweenSameTiming(s, pre) && UpdatedAt(s, pre, post, i, now)
    requires SettledBefore(s, pre, i, now) && UntouchedFrom(s, initial, pre, i) && AdvancedBefore(s, initial, pre, i, now)
    ensures AdvancedBefore(s, initial, post, i + 1, now)
  {
    if SeenBefore(s, i) {
      RepeatIsStable(s, pre, i, now);
      assert forall m :: 0 <= m < |s| ==> post[m] == pre[m];
      var j :| 0 <= j < i && s[j] == s[i];
      assert pre[i] == pre[j] && initial[i] == initial[j];
    } else {
      assert s[i] !in s[..i];
      assert pre[i] == initial[i];
      forall m | 0 <= m < i
        ensures post[m] == pre[m]
      {
        assert s[m] in s[..i];
      }
    }
  }

  /** One step of the tick's filter: updates entry i and records its verdict. */
  method VisitEntry(s: seq<Tween>, ghost initial: seq<Timing>, i: nat, keep: seq<bool>, now: real, sine: Easing.SineCurve)
    returns (k: bool)
    requires |initial| == |s| && i < |s| && |keep| == i
    requires forall m :: 0 <= m < |s| ==> s[m].Valid()
    requires forall m :: 0 <= m < |s| ==> s[m].DurationMs() != 0.0
    requires Progressed(s, initial, TimingsOf(s), i, keep, now)
    modifies s[i], s[i].element
    ensures Progressed(s, initial, TimingsOf(s), i + 1, keep + [k], now)
  {
    var t := s[i];
    ghost var pre := TimingsOf(s);
    k := t.Update(now, sine);
    ghost var post := TimingsOf(s);
    assert forall m :: 0 <= m < |s| && s[m] != t ==> post[m] == pre[m];
    assert UpdatedAt(s, pre, post, i, now);
    ProgressedStep(s, initial, pre, post, i, keep, k, now);
  }

  // ---- consequences of the unguarded `addActiveTween` ----

  /**
   * play, pause, play before the next frame lists the tween twice. The frame
   * after its end completes it through the first entry and keeps the second,
   * because a Completed tween's update returns true; from then on every frame
   * keeps it, so the scheduler never goes idle again unless the tween is cancelled.
   */
  method DuplicateEntryOutlivesCompletion(t: Tween, sched: Scheduler, sine: Easing.SineCurve)
    requires t.Valid() && sched.Valid() && sched.activeTweens == [] && t.Timing() == Initial
    modifies t, sched, t.element
    ensures sched.Valid() && sched.activeTweens == [t] && sched.isRunning
    ensures t.Timing().state == Completed
  {
    ListTwice(t, sched);
    var d := t.DurationMs();
    var end := 2.0 + t.DelayMs() + (if d < 0.0 then -d else d);
    TickTwiceListed(t, sched, end, sine);
    TickCompleted(t, sched, end + 1.0, sine);
  }

  /** A frame at or after the end of a playing tween listed twice completes it and keeps one entry. */
  method TickTwiceListed(t: Tween, sched: Scheduler, now: real, sine: Easing.SineCurve)
    requires t.Valid() && sched.Valid() && sched.activeTweens == [t, t] && sched.framePending
    requires t.Timing().state == Playing && !Advance(t.Timing(), now, t.DurationMs()).keep
    modifies t, sched, t.element
    ensures sched.Valid() && sched.activeTweens == [t] && sched.isRunning
    ensures t.Timing().state == Completed
  {
    assert Elements(sched.activeTweens) == {t.element};
    ghost var before := t.Timing();
    var keep := sched.Tick(now, sine);
    assert t.Timing() != before;
    assert t.Timing() == before.(state := Completed);
    assert SeenBefore([t, t], 1);
    assert keep == [false, true];
    assert [t, t][..1] == [t] && [false, true][..1] == [false];
    assert Select([t], [false]) == [];
  }

  /** A Completed tween that is still listed stays listed, and the scheduler stays running. */
  method TickCompleted(t: Tween, sched: Scheduler, now: real, sine: Easing.SineCurve)
    requires sched.Valid() && sched.activeTweens == [t] && sched.framePending
    requires t.Timing().state == Completed
    modifies t, sched, t.element
    ensures sched.Valid() && sched.activeTweens == [t] && sched.isRunning
    ensures t.Timing().state == Completed
  {
    assert Elements(sched.activeTweens) == {t.element};
    var keep := sched.Tick(now, sine);
    assert keep == [true];
    assert [t][..0] == [] && [true][..0] == [];
  }

  /** play at 0, pause at 1, play at 2, with no frame in between. */
  method ListTwice(t: Tween, sched: Scheduler)
    requires t.Valid() && sched.Valid() && sched.activeTweens == [] && t.Timing() == Initial
    modifies t, sched
    ensures sched.Valid() && sched.activeTweens == [t, t] && sched.framePending
    ensures t.Timing() == Playback.Timing(Playing, 2.0 + t.DelayMs(), 1.0)
  {
    t.Play(0.0, sched);
    assert t.Timing() == Playback.Timing(Playing, 0.0 + t.DelayMs(), 0.0) && sched.activeTweens == [t];
    t.Pause(1.0);
    assert t.Timing() == Playback.Timing(Paused, 0.0 + t.DelayMs(), 1.0);
    t.Play(2.0, sched);
  }
}
