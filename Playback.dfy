/**
 * The tween's playback state machine over its three timing fields. Every
 * operation is a function from the old timing (and the clock) to the new one,
 * together with whether the tween is handed to the scheduler and which events
 * fire. Times are milliseconds.
 */
module Playback {
  import opened Wrappers

  datatype PlaybackState = Begin | Playing | Paused | Completed | Cancelled

  /** `playbackState`, `startTime` and `pausedTime`. */
  datatype Timing = Timing(state: PlaybackState, startTime: real, pausedTime: real)

  const Initial := Timing(Begin, 0.0, 0.0)

  /** The events a tween fires; `OnStepped` carries the eased progress. */
  datatype Signal = OnCompleted | OnPaused | OnResumed | OnStepped(progress: real)

  datatype Transition = Transition(after: Timing, enqueued: bool, signals: seq<Signal>)

  /** `play()`: restarts timing from now plus the delay, from any state but Playing. */
  function Play(t: Timing, now: real, delayMs: real): (r: Transition)
    ensures r.after.state == Playing
    ensures r.enqueued <==> t.state != Playing
    ensures r.signals == [] || r.signals == [OnResumed]
    ensures OnResumed in r.signals ==> t.state != Playing && t.pausedTime > 0.0
  {
    if t.state == Playing then Transition(t, false, [])
    else Transition(Timing(Playing, now + delayMs, t.pausedTime), true,
                    if t.pausedTime > 0.0 then [OnResumed] else [])
  }

  /** `pause()`: only from Playing. */
  function Pause(t: Timing, now: real): (r: Transition)
    ensures !r.enqueued && r.after.startTime == t.startTime
    ensures r.after == t || r.after.state == Paused
    ensures r.signals == [] || r.signals == [OnPaused]
    ensures t.state == Playing ==> r.after.pausedTime == now
  {
    if t.state != Playing then Transition(t, false, [])
    else Transition(t.(state := Paused, pausedTime := now), false, [OnPaused])
  }

  /** `cancel()`: from every state, silently. */
  function Cancel(t: Timing): (r: Transition)
    ensures r.after.state == Cancelled && !r.enqueued && r.signals == []
    ensures r.after.startTime == t.startTime && r.after.pausedTime == t.pausedTime
  {
    Transition(t.(state := Cancelled), false, [])
  }

  /** `resume()`: shifts the start by the pause, clears the pause time, then plays. */
  function Resume(t: Timing, now: real, delayMs: real): (r: Transition)
    ensures r.signals == []
    ensures r.enqueued <==> t.state == Paused
    ensures t.state == Paused ==> r.after.state == Playing && r.after.pausedTime == 0.0
  {
    if t.state != Paused then Transition(t, false, [])
    else Play(t.(startTime := t.startTime + (now - t.pausedTime), pausedTime := 0.0), now, delayMs)
  }

  function Min(a: real, b: real): real {
    if a <= b then a else b
  }

  /** `Math.min(elapsed / duration, 1)`. */
  function RawProgress(elapsed: real, durationMs: real): real
    requires durationMs != 0.0
  {
    Min(elapsed / durationMs, 1.0)
  }

  /**
   * The outcome of one `update(now)`: the new timing, whether the tween stays
   * active, and the linear progress when the goals are written (the tween then
   * fires `stepped`, and `completed` as well when it does not stay active).
   */
  datatype Frame = Frame(after: Timing, keep: bool, progress: Option<real>)

  function Advance(t: Timing, now: real, durationMs: real): (f: Frame)
    requires durationMs != 0.0
    ensures TimingStep(t, f.after) && Settled(f.after, now, durationMs)
    ensures f.progress.Some? ==> t.state == Playing && now >= t.startTime
    ensures f.keep ==> f.after == t
    ensures !f.keep ==> f.after.state == Completed || f.after.state == Cancelled
  {
    if t.state != Playing then Frame(t, t.state != Cancelled, None)
    else if now < t.startTime then Frame(t, true, None)
    else
      var elapsed := now - t.startTime;
      var p := RawProgress(elapsed, durationMs);
      if elapsed >= durationMs then Frame(t.(state := Completed), false, Some(p))
      else Frame(t, true, Some(p))
  }

  /** A Playing tween whose end is not yet reached at `now`, or a tween that is not Playing. */
  predicate Settled(t: Timing, now: real, durationMs: real) {
    t.state == Playing ==> now < t.startTime || now - t.startTime < durationMs
  }

  /** The only change `update` makes to timing: Playing becomes Completed. */
  predicate TimingStep(before: Timing, after: Timing) {
    after == before || (before.state == Playing && after == before.(state := Completed))
  }

  // ---- play / pause / cancel / resume ----

  lemma PlayWhilePlayingIsNoop(t: Timing, now: real, delayMs: real)
    requires t.state == Playing
    ensures Play(t, now, delayMs) == Transition(t, false, [])
  {
  }

  /** From any other state: Playing, start = now + delay, one more scheduler entry, `resumed` iff pausedTime > 0. */
  lemma PlayRestarts(t: Timing, now: real, delayMs: real)
    requires t.state != Playing
    ensures var tr := Play(t, now, delayMs);
            tr.after == Timing(Playing, now + delayMs, t.pausedTime) && tr.enqueued
            && (tr.signals == [OnResumed] <==> t.pausedTime > 0.0)
            && (tr.signals == [] <==> t.pausedTime <= 0.0)
  {
  }

  /** Pause acts only from Playing, records the time and fires `paused` once; start time is kept. */
  lemma PauseOnlyFromPlaying(t: Timing, now: real)
    ensures var tr := Pause(t, now);
            !tr.enqueued
            && (t.state == Playing <==> tr.signals == [OnPaused])
            && (t.state == Playing ==> tr.after == Timing(Paused, t.startTime, now))
            && (t.state != Playing ==> tr.after == t && tr.signals == [])
  {
  }

  /** Cancelling twice is cancelling once. */
  lemma CancelIdempotent(t: Timing)
    ensures Cancel(Cancel(t).after) == Cancel(t)
  {
  }

  lemma ResumeOnlyFromPaused(t: Timing, now: real, delayMs: real)
    requires t.state != Paused
    ensures Resume(t, now, delayMs) == Transition(t, false, [])
  {
  }

  /**
   * Resume loses the pause compensation: `play` overwrites the shifted start,
   * so the result depends neither on the old start nor on the pause time.
   */
  lemma ResumeRestartsTiming(t: Timing, now: real, delayMs: real)
    requires t.state == Paused
    ensures Resume(t, now, delayMs) == Transition(Timing(Playing, now + delayMs, 0.0), true, [])
  {
  }

  /** `resumed` fires only when `play()` is called directly on a tween that was paused at a positive time. */
  lemma PlayAfterPauseSignalsResumed(t: Timing, pauseAt: real, now: real, delayMs: real)
    requires t.state == Playing && pauseAt > 0.0
    ensures var paused := Pause(t, pauseAt).after;
            Play(paused, now, delayMs).signals == [OnResumed] && Play(paused, now, delayMs).enqueued
  {
  }

  /**
   * Pausing at progress p and resuming later does not continue from p: with no
   * delay, a frame e milliseconds after the resume is at progress min(e / duration, 1),
   * whatever the pause time was, so the first frame after the resume starts
   * again from progress 0.
   */
  lemma PauseResumeRestartsProgress(t: Timing, pauseAt: real, resumeAt: real, e: real, durationMs: real)
    requires t.state == Playing && durationMs > 0.0 && t.startTime <= pauseAt <= resumeAt && 0.0 <= e
    ensures var resumed := Resume(Pause(t, pauseAt).after, resumeAt, 0.0).after;
            Advance(resumed, resumeAt + e, durationMs).progress == Some(RawProgress(e, durationMs))
    ensures var resumed := Resume(Pause(t, pauseAt).after, resumeAt, 0.0).after;
            e == 0.0 ==> Advance(resumed, resumeAt + e, durationMs).progress == Some(0.0)
  {
  }

  // ---- update ----

  /** Not Playing: nothing changes, and the tween leaves the list exactly when it is Cancelled. */
  lemma AdvanceWhenNotPlaying(t: Timing, now: real, durationMs: real)
    requires durationMs != 0.0 && t.state != Playing
    ensures Advance(t, now, durationMs) == Frame(t, t.state != Cancelled, None)
  {
  }

  /** Still in the delay: the tween stays, with no writes and no events. */
  lemma AdvanceDuringDelay(t: Timing, now: real, durationMs: real)
    requires durationMs != 0.0 && t.state == Playing && now < t.startTime
    ensures Advance(t, now, durationMs) == Frame(t, true, None)
  {
  }

  /** Running: progress is min(elapsed / duration, 1); the tween completes and leaves exactly when elapsed >= duration. */
  lemma AdvanceWhenRunning(t: Timing, now: real, durationMs: real)
    requires durationMs != 0.0 && t.state == Playing && now >= t.startTime
    ensures var f := Advance(t, now, durationMs);
            var elapsed := now - t.startTime;
            f.progress == Some(Min(elapsed / durationMs, 1.0))
            && (f.keep <==> elapsed < durationMs)
            && f.after == (if f.keep then t else t.(state := Completed))
  {
  }

  /** `update` returns false exactly for a Cancelled tween or a Playing one whose time is up. */
  lemma AdvanceDropsExactly(t: Timing, now: real, durationMs: real)
    requires durationMs != 0.0
    ensures !Advance(t, now, durationMs).keep
            <==> t.state == Cancelled
                 || (t.state == Playing && now >= t.startTime && now - t.startTime >= durationMs)
  {
  }

  /** With a positive duration the progress lies in [0, 1] and reaches 1 exactly when the tween completes. */
  lemma {:induction false} ProgressInUnitRange(elapsed: real, durationMs: real)
    requires durationMs > 0.0 && elapsed >= 0.0
    ensures 0.0 <= RawProgress(elapsed, durationMs) <= 1.0
    ensures RawProgress(elapsed, durationMs) == 1.0 <==> elapsed >= durationMs
  {
    var q := elapsed / durationMs;
    assert q * durationMs == elapsed;
    if elapsed >= durationMs {
      assert q >= 1.0;
    } else {
      assert q < 1.0;
    }
  }

  /** With a positive duration the progress never decreases as time passes. */
  lemma ProgressMonotone(e1: real, e2: real, durationMs: real)
    requires durationMs > 0.0 && e1 <= e2
    ensures RawProgress(e1, durationMs) <= RawProgress(e2, durationMs)
  {
    var q1, q2 := e1 / durationMs, e2 / durationMs;
    assert q1 * durationMs == e1 && q2 * durationMs == e2;
    assert (q2 - q1) * durationMs == e2 - e1;
  }

  /** A negative duration (kept by `||`) completes the tween on its first running frame. */
  lemma NegativeDurationCompletesAtOnce(t: Timing, now: real, durationMs: real)
    requires durationMs < 0.0 && t.state == Playing && now >= t.startTime
    ensures Advance(t, now, durationMs).after.state == Completed
    ensures !Advance(t, now, durationMs).keep
  {
  }

  // ---- facts the scheduler relies on ----

  /** A second update at the same `now` keeps the state and keeps the tween unless it is Cancelled. */
  lemma AdvanceSettledIsStable(t: Timing, now: real, durationMs: real)
    requires durationMs != 0.0 && Settled(t, now, durationMs)
    ensures Advance(t, now, durationMs).after == t
    ensures Advance(t, now, durationMs).keep == (t.state != Cancelled)
  {
  }
}
