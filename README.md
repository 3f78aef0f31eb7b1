# TweenFramework engine model

This is a Dafny model of the animation engine in `src/TweenFramework.js`, a small tween
library in the style of Roblox's TweenService, built for the browser. A *tween* animates
a set of named properties of one element from their values at creation time to goal
values over a duration. It can wait for a delay first, and it runs through an easing
curve. One shared *scheduler* keeps the ordered list of active tweens. On every animation
frame it calls each tween's `update` and keeps only the tweens whose update returned true.

The model is split into modules that follow the engine's parts:

| module | file | what it holds |
|---|---|---|
| `Easing` | `Easing.dfy` | the easing table (Linear, Quad, Sine, Bounce, Back × In, Out, InOut), looked up by name |
| `Values` | `Values.dfy` | property values (numbers or other tokens), JavaScript `\|\|` defaulting, the interpolator |
| `Transform` | `Transform.dfy` | the per-element transform record and `buildTransform` |
| `PropertySink` | `PropertySink.dfy` | the property map: how a property write lands on the element (`Element` class) |
| `Events` | `Events.dfy` | the `TweenEvent` channel and its connection handles (classes) |
| `Playback` | `Playback.dfy` | the playback state machine as pure functions over (state, startTime, pausedTime) |
| `Engine` | `Engine.dfy` | tween configuration, the `Tween` class, the `Scheduler` class, and scenarios |
| `Arithmetic`, `Wrappers` | | two product facts; `Option` |

The stateful parts are Dafny classes, and their methods are proved against pure functions:
- `Tween`, `Scheduler`, `Element`, `TweenEvent` and `Connection` are classes.
- `Tween.Play`, `Pause`, `Cancel`, `Resume` and `Update` leave the tween's timing equal to
  `Playback.Play`/`Pause`/`Cancel`/`Resume`/`Advance` applied to the old timing.
- The element's new state is `ApplyGoals` of the old one.
- `TweenEvent.Fire` invokes exactly `Listeners()`.

The clock (`performance.now()`, the frame timestamp) is a `now` parameter in milliseconds.
One call of `Scheduler.Tick` is one run of the frame callback. A pending
`requestAnimationFrame` is the `framePending` flag.

The model keeps several behaviours of the code exactly as written:
- `resume` loses the pause compensation, because `play` overwrites the shifted start time.
- `resume` never fires `resumed`, because it clears `pausedTime` before `play` tests it.
- `addActiveTween` does not de-duplicate.
- `duration || 1` turns a missing or zero duration into 1; a negative duration is kept.
- `repeatCount`, `reverses` and `currentRepeat` are stored and never read.

The duplicate entries have a lasting effect, shown by `Engine.DuplicateEntryOutlivesCompletion`:
1. Call play, pause and play before the next frame: the tween is listed twice.
2. The frame after its end completes it through the first entry and keeps the second entry,
   because a Completed tween's `update` returns true.
3. From then on every frame keeps it, so the scheduler never goes idle unless the tween is
   cancelled: a Cancelled entry is dropped at the next frame.

A goal literally named `transform` is not in the property map, so it is written to `style.transform`
as it is. A spatial goal writes the same key with the serialised record. The two overwrite each other
in goal order, which is why the `ApplyGoals` lemmas about `transform` exclude such a goal.

## Model

| member | source | states |
|---|---|---|
| `Easing.Ease` | src/TweenFramework.js:305-308 | a known (style, direction) pair applies that table entry; an unknown style or direction leaves the progress unchanged |
| `Easing.Curve` | src/TweenFramework.js:11-46 | the table entry for a style and a direction: Linear is the identity, Sine is the host's curve, and every other entry maps 0 to 0 and 1 to 1 |
| `Easing.QuadOut` | src/TweenFramework.js:19 | Quad.Out is Quad.In turned about (0.5, 0.5): 1 - QuadIn(1 - t) |
| `Easing.QuadInOut` | src/TweenFramework.js:20 | below 0.5 it is Quad.In of 2t, halved; from 0.5 on it is the mirror image 1 - QuadIn(2 - 2t) / 2 |
| `Easing.BackOut` | src/TweenFramework.js:41 | Back.Out is Back.In turned about (0.5, 0.5): 1 - BackIn(1 - t) |
| `Easing.EaseFixesEndpoints` | src/TweenFramework.js:305-308 | looking a curve up by name also fixes 0 and 1, including the pass-through for unknown names (Sine excluded) |
| `Easing.InOutMeetsAtMidpoint` | src/TweenFramework.js:12-44 | the Linear, Quad, Bounce and Back InOut curves pass through (0.5, 0.5) |
| `Easing.QuadHalvesMeet` | src/TweenFramework.js:20 | both branches of Quad.InOut give 0.5 at t = 0.5, so the two halves meet there |
| `Easing.BounceHalvesMeet` | src/TweenFramework.js:35-37 | both branches of Bounce.InOut give 0.5 at t = 0.5, so the two halves meet there |
| `Easing.BackHalvesMeet` | src/TweenFramework.js:42-44 | both branches of Back.InOut give 0.5 at t = 0.5, so the two halves meet there |
| `Easing.InOutSymmetric` | src/TweenFramework.js:12-44 | the Linear, Quad, Bounce and Back InOut curves are symmetric about (0.5, 0.5): InOut(t) + InOut(1 - t) = 1 for every t |
| `Easing.QuadIsMonotone` | src/TweenFramework.js:12-21 | Linear and all three Quad curves never decrease on [0, 1] |
| `Easing.QuadInOutMonotone` | src/TweenFramework.js:20 | Quad.InOut never decreases on [0, 1], across the switch of halves at 0.5 |
| `Easing.BounceOutStaysInUnitRange` | src/TweenFramework.js:29-34 | Bounce.Out maps [0, 1] into [0, 1] on each of its four arcs |
| `Easing.BackUndershootsZero` | src/TweenFramework.js:40 | Back.In overshoots: at 0.5 it is below 0 |
| `Values.Or` | src/TweenFramework.js:98-99 | `v \|\| fallback`: the fallback for undefined, 0 and "", otherwise the value itself |
| `Values.Interpolate` | src/TweenFramework.js:332-337 | at progress 1 every pair yields the goal; two numbers give a number, equal to the start at progress 0; any other pair gives either the start or the goal, never an intermediate value |
| `Values.InterpolateNumberBetween` | src/TweenFramework.js:332-333 | for progress in [0, 1] the numeric value lies between start and goal, in either order |
| `Values.InterpolateSnaps` | src/TweenFramework.js:334-337 | a non-numeric pair holds the start value strictly before progress 1 and the goal from 1 on |
| `Transform.Set` | src/TweenFramework.js:50-85 | a spatial mapper defines its own field of the record and leaves the other five unchanged |
| `Transform.BuildTransform` | src/TweenFramework.js:94-116 | at most three segments, always in the order translate, rotate, scale; no segment at all exactly for the empty record |
| `Transform.BuildTransformTranslate` | src/TweenFramework.js:97-101 | a translation appears exactly when x or y is defined; it comes first, and a missing or falsy coordinate becomes 0 |
| `Transform.BuildTransformRotate` | src/TweenFramework.js:103-105 | a defined rotation comes right after the translation, if any; an undefined rotation emits nothing |
| `Transform.BuildTransformScalePrecedence` | src/TweenFramework.js:107-108 | a defined `scale` is the last segment and rules out the two-axis scale |
| `Transform.BuildTransformScaleAxes` | src/TweenFramework.js:109-113 | without `scale`, a defined scaleX or scaleY gives scale(sx, sy), with a missing or zero axis read as 1 |
| `PropertySink.MappingOf` | src/TweenFramework.js:49-91 | a spatial entry's field has the property's own name; width and height, and only they, are lengths; opacity, backgroundColor and color, and only they, pass through |
| `PropertySink.MappingOfFieldName` | src/TweenFramework.js:49-85 | every field of the transform record is reached through the map under its own name |
| `PropertySink.Apply` | src/TweenFramework.js:339-350 | a write changes the one style key it targets and keeps every other key. Spatial names set their record field, keep the other fields, and write `transform` as the serialised record. width/height get a pixel unit; every other name is written raw |
| `PropertySink.Element.ApplyProperty` | src/TweenFramework.js:339-350 | the element's style and record afterwards are `Apply` of what they were |
| `PropertySink.Element.constructor` | src/TweenFramework.js:51 | a new element has the given style and no transform record yet (the empty record) |
| `PropertySink.ApplyGoals` | src/TweenFramework.js:325-352 | `updateProperties` keeps every style key it found; with no spatial goal the transform record is untouched |
| `PropertySink.ApplyGoalsStep` | src/TweenFramework.js:326-350 | one more iteration of the goal loop adds exactly that goal's write, at its interpolated value, to what the earlier goals wrote |
| `PropertySink.ApplyGoalsWritesEach` | src/TweenFramework.js:325-352 | after `updateProperties`, each non-spatial goal property other than `transform` holds its own interpolated value, whatever the goals after it write |
| `PropertySink.ApplyGoalsSetsField` | src/TweenFramework.js:325-352 | after `updateProperties`, each spatial goal property's record field holds its interpolated value |
| `PropertySink.ApplyGoalsTransformConsistent` | src/TweenFramework.js:340-343 | when no goal is named `transform`, once any spatial property is written, `transform` is the serialisation of the final record |
| `PropertySink.ApplyGoalsLeavesOthers` | src/TweenFramework.js:325-352 | style keys that no goal targets are left as they were |
| `PropertySink.ApplyGoalsKeepsFields` | src/TweenFramework.js:50-85 | a transform record field that no goal targets keeps its value, so a tween of one spatial property keeps what earlier tweens wrote to the others |
| `PropertySink.ApplyGoalsAddsOnlyTargets` | src/TweenFramework.js:325-352 | a style key that was absent and that no goal targets is still absent afterwards |
| `Events.Connection.constructor` | src/TweenFramework.js:167 | a new connection belongs to its channel, holds its callback and is connected |
| `Events.Connection.Disconnect` | src/TweenFramework.js:171-174 | clears the flag; the channel keeps exactly its other entries, in order, and stays valid |
| `Events.StillConnected` | src/TweenFramework.js:173 | the filter keeps only connected entries, never more than there were, and keeps the list unchanged when every entry is connected |
| `Events.Invoked` | src/TweenFramework.js:178-184 | `fire` calls one callback per entry the `connected` filter keeps |
| `Events.InvokedFollowsStillConnected` | src/TweenFramework.js:178-184 | the callbacks `fire` calls are, position by position, those of the entries the `connected` filter keeps |
| `Events.StillConnectedDropsOne` | src/TweenFramework.js:173 | when every other entry is connected, the `connected` filter removes exactly the disconnected connection |
| `Events.WithoutKeepsOthers` | src/TweenFramework.js:173 | the filtered list holds exactly the entries other than the disconnected one |
| `Events.TweenEvent.constructor` | src/TweenFramework.js:162-164 | a new channel has no connections |
| `Events.TweenEvent.Connect` | src/TweenFramework.js:166-176 | appends one fresh connected entry for the callback and returns it as the handle; the listeners grow by exactly that callback |
| `Events.TweenEvent.Fire` | src/TweenFramework.js:178-184 | invokes exactly the callbacks of the connected entries, in subscription order |
| `Events.TweenEvent.ValidListenersAreAll` | src/TweenFramework.js:178-184 | in a channel whose disconnected entries were filtered out, every subscriber is called, once and in order |
| `Events.AllConnectedInvoked` | src/TweenFramework.js:179-183 | when every entry is connected, the invoked callbacks are the entries' callbacks position by position |
| `Playback.Play` | src/TweenFramework.js:256-267 | `play` always leaves the tween Playing; it enqueues exactly when the tween was not Playing; the only event it can fire is `resumed`, and only from another state with a positive pause time |
| `Playback.Pause` | src/TweenFramework.js:269-275 | `pause` never enqueues and keeps the start time; it either changes nothing or gives Paused; the only event it can fire is `paused`; from Playing it records the pause time |
| `Playback.Cancel` | src/TweenFramework.js:277-279 | `cancel` from any state gives Cancelled, keeps both times, enqueues nothing and fires nothing |
| `Playback.Resume` | src/TweenFramework.js:281-289 | `resume` never fires any event, so never `resumed`; it enqueues exactly from Paused, where it gives Playing with the pause time cleared |
| `Playback.Advance` | src/TweenFramework.js:291-323 | `update` only moves Playing to Completed and leaves the tween settled for `now`; progress is written only for a Playing tween past its start; a kept tween keeps its timing; a dropped one is Completed or Cancelled |
| `Playback.PlayWhilePlayingIsNoop` | src/TweenFramework.js:257 | `play` on a Playing tween changes nothing, enqueues nothing and fires nothing |
| `Playback.PlayRestarts` | src/TweenFramework.js:259-266 | from any other state: Playing, start = now + delay, pausedTime kept, one more scheduler entry; `resumed` fires if and only if pausedTime > 0 |
| `Playback.PauseOnlyFromPlaying` | src/TweenFramework.js:269-275 | `pause` acts exactly from Playing: Paused, pausedTime = now, start kept, `paused` fired once; otherwise nothing at all |
| `Playback.CancelIdempotent` | src/TweenFramework.js:277-279 | a second cancel changes nothing |
| `Playback.ResumeOnlyFromPaused` | src/TweenFramework.js:282 | `resume` on a tween that is not Paused changes nothing |
| `Playback.ResumeRestartsTiming` | src/TweenFramework.js:281-289 | `resume` from Paused gives start = now + delay and pausedTime = 0, independent of the old start and pause time (the compensation is lost) |
| `Playback.PlayAfterPauseSignalsResumed` | src/TweenFramework.js:264-266 | calling `play` directly on a tween paused at a positive time fires `resumed` and enqueues it |
| `Playback.PauseResumeRestartsProgress` | src/TweenFramework.js:281-302 | pause then resume with no delay: a frame e ms after the resume is at progress min(e / duration, 1), whatever the pause time was, so the first frame after the resume is at 0, not where the pause left it |
| `Playback.AdvanceWhenNotPlaying` | src/TweenFramework.js:292-294 | `update` on a tween that is not Playing changes nothing and keeps it unless it is Cancelled |
| `Playback.AdvanceDuringDelay` | src/TweenFramework.js:296-298 | before the start time the tween stays, with no write and no event |
| `Playback.AdvanceWhenRunning` | src/TweenFramework.js:300-322 | once started, progress is min(elapsed / duration, 1); the tween completes and leaves exactly when elapsed >= duration |
| `Playback.AdvanceDropsExactly` | src/TweenFramework.js:291-323 | `update` returns false exactly for a Cancelled tween or a Playing one whose time is up |
| `Playback.ProgressInUnitRange` | src/TweenFramework.js:300-302 | with a positive duration the linear progress lies in [0, 1] and is 1 exactly when elapsed >= duration |
| `Playback.ProgressMonotone` | src/TweenFramework.js:300-302 | with a positive duration the linear progress never decreases as time passes |
| `Playback.NegativeDurationCompletesAtOnce` | src/TweenFramework.js:301-319 | a negative duration (kept by `\|\|`) completes the tween on its first running frame |
| `Playback.AdvanceSettledIsStable` | src/TweenFramework.js:291-323 | a second `update` at the same `now` changes nothing, and keeps the tween unless it is Cancelled |
| `Engine.Normalize` | src/TweenFramework.js:191-198 | field by field, the constructor's `\|\|` defaults: a missing or zero duration becomes 1, a missing or empty style Quad and direction Out, a missing repeat count 0, a missing reverse flag false, a missing delay 0; every given value that is not falsy is kept, and duration, style and direction are never falsy |
| `Engine.NoInfoGivesDefaults` | src/TweenFramework.js:191-198 | the empty configuration gives duration 1, Quad, Out, no repeat, no reverse, no delay |
| `Engine.NormalizeIdempotent` | src/TweenFramework.js:191-198 | normalising a stored configuration again changes nothing |
| `Engine.StartValues` | src/TweenFramework.js:218-254 | a start value is captured for exactly the goal properties |
| `Engine.StartValue` | src/TweenFramework.js:222-252 | for each property: a transform record field that is defined and not falsy is the start, otherwise 0 (1 for scale, scaleX, scaleY); opacity is the host's value, or 1 when that is falsy; width and height are the host's value as it is; any other property is the computed style, or "" when that is falsy |
| `Engine.Select` | src/TweenFramework.js:138-140 | the filter never lengthens the list and keeps it whole when every update returned true |
| `Engine.SelectAppend` | src/TweenFramework.js:138-140 | the scheduler's filter distributes over concatenation, so the kept tweens stay in their relative order |
| `Engine.SelectMembers` | src/TweenFramework.js:138-140 | a tween survives the filter exactly when some entry of it returned true |
| `Engine.SelectEmpty` | src/TweenFramework.js:138-144 | the filtered list is empty (the loop stops) exactly when every update returned false |
| `Engine.Tween.constructor` | src/TweenFramework.js:189-216 | the stored configuration is the normalised one; state Begin with both times 0 and repeat 0; four fresh empty event channels; start values captured from the element's record and the host's reads |
| `Engine.Tween.Play` | src/TweenFramework.js:256-267 | the new timing is `Playback.Play` of the old one. When that enqueues, the scheduler list gets this tween appended and runs; otherwise the scheduler is unchanged. `resumed` is fired to its listeners exactly when the transition signals it |
| `Engine.Tween.Pause` | src/TweenFramework.js:269-275 | the new timing is `Playback.Pause` of the old one; `paused` fires to its listeners exactly when it acts |
| `Engine.Tween.Cancel` | src/TweenFramework.js:277-279 | the new timing is `Playback.Cancel` of the old one; no event fires |
| `Engine.Tween.Resume` | src/TweenFramework.js:281-289 | the new timing and scheduler effect are `Playback.Resume` of the old timing; no event fires |
| `Engine.Tween.Update` | src/TweenFramework.js:291-323 | the timing and the returned flag are `Playback.Advance`. With no progress, the element and the event log are untouched. Otherwise the element becomes `ApplyGoals` at the eased progress, `stepped` fires with that progress, and then `completed` fires when the tween leaves |
| `Engine.Tween.Run` | src/TweenFramework.js:300-322 | once started, the timing and the returned flag are `Playback.Advance`; the element becomes `ApplyGoals` at the eased progress, `stepped` fires with it, then `completed` when the tween leaves |
| `Engine.Tween.UpdateProperties` | src/TweenFramework.js:325-352 | the element's style and record afterwards are `ApplyGoals` of what they were, goal by goal in order |
| `Engine.Tween.HandleCompletion` | src/TweenFramework.js:354-357 | state becomes Completed with both times kept; `completed` fires to its listeners |
| `Engine.Create` | src/TweenFramework.js:119-121 | a fresh tween exactly as the constructor leaves it: normalised configuration, the given goals with their captured start values, state Begin with both times 0, nothing fired, and four fresh, valid, empty event channels |
| `Engine.To` | src/TweenFramework.js:124-126 | a fresh tween exactly as the constructor leaves it, for the defaults with only the duration given (1 second when omitted) |
| `Engine.Scheduler.constructor` | src/TweenFramework.js:7-8 | no active tweens, not running |
| `Engine.Scheduler.StartAnimationLoop` | src/TweenFramework.js:129-151 | when already running, nothing changes; otherwise it becomes running with exactly one frame requested |
| `Engine.Scheduler.AddActiveTween` | src/TweenFramework.js:154-157 | appends the tween even if it is already listed, and leaves the scheduler running |
| `Engine.Scheduler.Tick` | src/TweenFramework.js:134-147 | one result per entry of the old list. The new list is the kept entries in order. The scheduler keeps running exactly when that list is non-empty. Every listed tween ends with the timing `Advance` computes from its timing at the start of the frame, so it only moves from Playing to Completed and is settled for `now`. A first occurrence is kept as `Advance` of its timing at the start of the frame decides. A repeated entry is kept exactly when the tween is not Cancelled |
| `Engine.UpdateAll` | src/TweenFramework.js:138-140 | the filter loop: one verdict per entry, the kept list in order, and the per-entry facts `Tick` promises |
| `Engine.VisitEntry` | src/TweenFramework.js:138-140 | one step of the filter keeps those per-entry facts for the visited prefix |
| `Engine.ListTwice` | src/TweenFramework.js:256-275 | play, pause and play before any frame list the same tween twice, Playing from 2 plus the delay |
| `Engine.TickTwiceListed` | src/TweenFramework.js:138-140 | a frame after the end of a Playing tween listed twice completes it and keeps one entry of it |
| `Engine.TickCompleted` | src/TweenFramework.js:292-294 | a listed Completed tween stays listed, and the scheduler stays running |
| `Engine.DuplicateEntryOutlivesCompletion` | src/TweenFramework.js:154-157 | after play, pause, play, the tween stays Completed in the active list and the scheduler keeps running two frames past its end |

## Left out

- The Sine curves use `Math.sin`/`Math.cos`. They are a host-supplied function (`Easing.SineCurve`) and are not interpreted. Easing lemmas about endpoints, midpoints and monotonicity exclude Sine.
- Arithmetic is over exact reals. IEEE-754 rounding, NaN, infinities and `parseFloat` are not modelled. `Values.Falsy` therefore treats only 0 and "" as falsy, not NaN.
- Turning numbers into CSS text is not modelled: `${v}px`, `translate(…px, …px)`, `rotate(…deg)`, `scale(…)` and the final `trim()`. A transform is a list of segments, and a length is `Pixels(v)`.
- The DOM reads in `setupStartValues` are a host function (`Engine.HostRead`). That covers `getComputedStyle`, `offsetWidth` and `offsetHeight`. The start value follows the code's per-property rules on what the function returns. The type of what it returns is not constrained: in the browser a computed style is always a string, so a numeric goal for such a property snaps at the end, while the model also allows a number there, which it would interpolate.
- `requestAnimationFrame` and `performance.now()` are not modelled as such. The frame request is the `framePending` flag and the time is a `now` parameter. `Engine.Scheduler.Tick` is one run of the loop body.
- Running callbacks is not modelled. Callbacks are ids, and firing records the ids it invokes in `Tween.fired`. Callbacks that re-enter the engine are therefore left out. This includes a `play` during a frame, whose append the code loses when the filtered list is stored.
- Lookups by property name match only the names the tables list. Inherited object keys such as `constructor` are not modelled.
- Repeats and reversal: the code stores `repeatCount`, `reverses` and `currentRepeat` and never reads them. The model stores them too.
- Engine.Scheduler.Tick: its contract does not restate the element writes or the event firings (the `fired` log) of each update. Each entry's `Tween.Update` contract describes them. A Playing entry that is listed twice and not yet due is updated twice, so it writes its goals and fires `stepped` twice in one frame.
- The module export at the end of the file is not modelled.
- The two boolean getters are `Engine.Tween.IsPlaying` and `Engine.Tween.IsPaused`. Their bodies are the state tests, and they have no contracts of their own.
- The scheduler's list and flags are one `Engine.Scheduler` object passed to `Play`/`Resume` explicitly. The code uses static fields.
