# shb-touch in Dafny

A model of the touch-gesture trackers of shb-touch and of the small event-target registry
they publish their events through.

- **ShbTouch** (`src/ShbTouch.js`) turns a stream of native touch events into `touchStart`,
  `pushBy`, `touchEnd` and `touchEndWithMomentum` events. It follows one finger at a time
  (re-resolving the finger on every move), keeps per-axis path and speed buffers, derives a
  direction per axis with a zero-delta inversion rule and a guarded reversal reset, and on
  release estimates momentum as the mean distance of the last few moves. With a `lock` on
  one axis it uses the first two moves of a gesture to decide whether to own the gesture
  (suppressing the native events from then on) or to ignore it for the rest of the gesture.
- **Kotti** (`src/Kotti.js`) is the earlier tracker with the same path engine. It always
  follows the first contact and, while enabled, always prevents the native default. Every
  processed move runs the path engine, then the lock is decided, then the move pushes (except
  on the first counted lock move). It emits `momentum` whenever momentum is allowed.
- **The registry** (`src/utils.js`, `addEventTargetInterface`) keeps a listener list per event
  type: add appends, remove drops every occurrence, dispatch calls every listener in order.

Each handler is a pure function from a configuration, a session, a snapshot of the native
event and the current time to a `Step`: the new session, the events emitted in order, and
whether the native event's default action and its propagation were suppressed. The clock is a
parameter (`now`), the DOM event is a `Snapshot` (contacts with identifier and page position,
the identifier of the changed contact, and the number of contacts still on the target).

Modules: `Touches` (axes, points, contacts), `Settings` (defaults, option merge, normalisation),
`Tracking` (the shared per-axis engine, momentum estimator, output events), `ShbTouch`,
`ShbTouchProps` and `ShbTouchScenarios`, `Kotti` and `KottiProps`, `Listeners`.

The model follows the code, including where its behaviour may be surprising:

- Kotti with a lock does not push on the first counted move: it returns before dispatching.
  The second counted move pushes even when it yields, and so does every later move that is
  not ignored (`Kotti.Arbitrate`).
- The ShbTouch buffers are not always "one more position than samples". Disabling during a
  gesture empties them, and a move after re-enabling then pushes a position and a sample
  together. The invariant kept is `|speed| <= |path| <= |speed| + 1` (`Tracking.Aligned`).
- A lock move whose second count finds no start point reads a property of `null` and throws.
  The counter increment before it survives. Nothing is emitted, and nothing more is
  suppressed than what had already been called (`ShbTouch.Arbitrate`'s `Unanchored`).

## Model

| member | source | states |
|---|---|---|
| Settings.Merge | src/ShbTouch.js:5-35 | every option given replaces the default of the same name, every absent one keeps the default (both axes, no capture, momentum on, no lock, 3 px, 3 samples, 66 ms); no options give exactly the defaults |
| Settings.Normalize | src/ShbTouch.js:91-95 | a lock survives iff it was asked for and at most one axis is followed; a surviving lock forces capture; nothing else changes |
| Settings.FromOptionsWellFormed | src/ShbTouch.js:91-95 | any options with valid axes give a configuration the handlers accept, locked only on a single axis |
| Tracking.NextDirection | src/ShbTouch.js:279-285 | a non-zero delta gives its sign; a zero delta inverts the current direction; directions stay in {-1, 0, 1} |
| Tracking.Advance | src/ShbTouch.js:263-307 | the move's push is the new direction and the absolute delta; the direction shifts into the previous one; a reversal (new direction differs and the previous one is not 0) restarts the path at the new position with no samples, otherwise position and sample are appended; a track whose previous direction is 0 never resets; the buffer invariant is kept |
| Tracking.AdvanceAll | src/ShbTouch.js:263-311 | every configured axis advances with the same elapsed time; unconfigured axes are untouched and push nothing |
| Tracking.Restarted | src/ShbTouch.js:174-184 | each configured axis becomes a one-point path at the new position with no samples and both directions 0; the other axis is untouched |
| Tracking.Cleared | src/ShbTouch.js:110-113 | each configured axis loses its positions and samples and keeps its directions |
| Tracking.Reseeded | src/Kotti.js:299-306 | each configured axis restarts at the given position with no samples and keeps its directions |
| Tracking.PointsToConsider | src/ShbTouch.js:353 | the estimator averages the smaller of the sample count and the configured maximum |
| Tracking.AverageOfTrailing | src/ShbTouch.js:352-360 | the backwards loop adding each trailing distance divided by the count yields the mean of the last `PointsToConsider` distances, 0 when there are none to consider |
| Tracking.MeanPositive | src/ShbTouch.js:352-368 | the estimate is positive iff some sample is considered and one of the considered samples has a non-zero distance |
| Tracking.AxisRelease | src/ShbTouch.js:344-365 | the released speed is never negative and is positive exactly when the path spans the minimum distance from first to last position and one of the considered samples moved; a qualifying axis releases in its committed direction at the mean distance (speed times sample count is the sum of the considered distances); an axis that does not qualify releases nothing |
| Tracking.Releases | src/ShbTouch.js:335-366 | configured axes carry their own release, the other axis none |
| ShbTouch.ActiveFingerIndex | src/ShbTouch.js:160-165 | the index of the last contact with the changed identifier, 0 when none has it, always a valid index of a non-empty list |
| ShbTouch.CheckForNewStart | src/ShbTouch.js:156-186 | the active finger is always re-resolved; when it changed or the call is forced, the start point and both timestamps are set and every configured axis restarts at the finger's position; otherwise the session is unchanged; no other field changes |
| ShbTouch.Start | src/ShbTouch.js:156-204 | no-op while disabled; otherwise active, `touchStart`, the finger resolved afresh as the last contact with the changed identifier, and a forced restart of every configured axis at that finger while the other axis is untouched; arbitration cleared iff fewer than two contacts, kept otherwise; the invariant is kept |
| ShbTouch.Arbitrate | src/ShbTouch.js:223-248 | with a lock, the first counted move only probes; the second yields iff the finger moved further across the locked axis than along it from the start point (a tie claims), and cannot decide without a start point; without a lock or after the decision, nothing to arbitrate |
| ShbTouch.Follow | src/ShbTouch.js:250-314 | every configured axis advances; `pushBy` goes out iff some configured axis moved, carrying each configured axis's push and a zero push for the other axis; suppression equals the claimed flag |
| ShbTouch.ProcessMove | src/ShbTouch.js:223-314 | a probe is counted and suppressed without touching buffers or timestamps; a yield sets the ignore flag and emits nothing; a claim sets the suppression flag and follows; the flags stay set, the counter never decreases, the invariant is kept |
| ShbTouch.Move | src/ShbTouch.js:207-214 | no-op while disabled or after a yield; otherwise the finger is re-resolved and the move processed at that finger's position; at most one `pushBy` |
| ShbTouch.End | src/ShbTouch.js:318-371 | no-op while scrolling is disabled; otherwise the finger is always marked for re-resolution; with contacts left nothing else happens; otherwise the gesture ends with exactly one `touchEnd`, and a momentum event follows iff momentum is on, the idle time is within the limit and some axis has a positive estimate |
| ShbTouch.Cancel | src/ShbTouch.js:374-377 | only clears the active flag, emits nothing; no-op while disabled |
| ShbTouch.DisableScrolling | src/ShbTouch.js:106-123 | records the flag; disabling an active gesture clears the configured buffers, deactivates and emits exactly one `touchEnd`; otherwise nothing else changes |
| ShbTouch.Apply | src/ShbTouch.js:189-377 | every handler keeps the session invariant; ignore and claim flags and the counter survive every input except a start with fewer than two contacts; while disabled only enabling does anything |
| ShbTouchProps.InitialInv | src/ShbTouch.js:37-71 | the freshly constructed session satisfies the invariant |
| ShbTouchProps.RunPreservesInv | src/ShbTouch.js:223-248 | over any run the invariant holds, so the move counter never exceeds 2 |
| ShbTouchProps.InitialLockInv | src/ShbTouch.js:37-71 | the constructed tracker has nothing sampled and has not yielded |
| ShbTouchProps.ApplyKeepsLockInv | src/ShbTouch.js:223-248 | under every handler, only a lock can yield, and with a lock no configured axis holds a sample until the gesture is claimed |
| ShbTouchProps.RunKeepsLockInv | src/ShbTouch.js:189-377 | the lock invariant holds at the end of every run |
| ShbTouchProps.YieldedGestureHasNoMomentum | src/ShbTouch.js:318-370 | releasing a gesture the lock yielded emits `touchEnd` alone, although the release handler never reads the ignore flag |
| ShbTouchProps.YieldedRunHasNoMomentum | src/ShbTouch.js:189-377 | whatever a new tracker was fed, once the lock has yielded the release emits no momentum |
| ShbTouchProps.RunKeepsSuppression | src/ShbTouch.js:197-208 | over a run without a single-contact start, set ignore and claim flags stay set and the counter does not decrease |
| ShbTouchProps.DisabledRunIsSilent | src/ShbTouch.js:189-377 | while disabled and until enabled again, no input changes the session or emits anything |
| ShbTouchProps.NoReversalAfterRestart | src/ShbTouch.js:289-301 | the first two moves after a restart extend the path whatever their positions |
| ShbTouchProps.IdleGesture | src/ShbTouch.js:318-370 | a start directly followed by the release emits `touchStart` and `touchEnd` and nothing else |
| ShbTouchProps.Handoff | src/ShbTouch.js:156-186 | after a lift with contacts left, the next move adopts the moving finger, restarts at its position and pushes nothing |
| ShbTouchProps.DragRun | src/ShbTouch.js:263-314 | a straight one-finger drag keeps its whole path, one sample per move, and its direction |
| ShbTouchProps.StraightDragMomentum | src/ShbTouch.js:331-370 | a straight drag whose moves each carry their own time emits momentum iff the finger lifts within the time limit of the last move and the drag spans the minimum distance; the momentum points in the drag's direction with a positive speed |
| ShbTouchScenarios.OneFingerMove | src/ShbTouch.js:207-314 | a move of the tracked finger without a lock is the path engine on the configured axis |
| ShbTouchScenarios.ReversalRestartsPath | src/ShbTouch.js:292-301 | a finger going 0, 10, 20 and back to 15 restarts its path at 15 with the direction turned |
| ShbTouchScenarios.ReversalMomentum | src/ShbTouch.js:352-369 | releasing after the turn averages only the samples taken after it, heading backwards |
| ShbTouchScenarios.LockClaims | src/ShbTouch.js:223-253 | a second move more along the locked axis claims the gesture, suppresses its events and pushes |
| ShbTouchScenarios.LockYields | src/ShbTouch.js:234-244 | a second move more across the locked axis yields, and every later move of the gesture is ignored |
| Kotti.Start | src/Kotti.js:155-182 | no-op while disabled; otherwise prevents the default, emits `touchStart`, restarts every configured axis at the first contact, sets both timestamps and clears the arbitration |
| Kotti.Arbitrate | src/Kotti.js:262-289 | without a lock the move pushes; with a lock every move stops propagation, the first counted move returns before pushing, the second sets the ignore flag iff the finger left the axis and pushes in both cases, except that with no start point it pushes nothing (the source throws there); later moves push |
| Kotti.Move | src/Kotti.js:185-290 | no-op while disabled; a yielded gesture only prevents the default; otherwise the first contact advances every configured axis before the lock is consulted, and a push carries each axis's push even when all are 0 |
| Kotti.End | src/Kotti.js:293-351 | no-op while disabled; with contacts left on the target every configured axis restarts at the first contact, keeping its direction, with no event; otherwise one `touchEnd`, then `momentum` whenever momentum is allowed, whatever its values |
| Kotti.Cancel | src/Kotti.js:354-359 | prevents the default and clears the active flag; no-op while disabled |
| Kotti.SetEnabled | src/Kotti.js:107-122 | records the flag; disabling an active gesture clears the configured buffers, deactivates and emits exactly one `touchEnd` |
| Kotti.Apply | src/Kotti.js:107-359 | every admissible input keeps the invariant; the ignore flag and the counter survive every input but a start; while disabled only switching the tracker changes anything; readable configured paths stay readable unless the tracker is switched during a gesture, and an enabled start makes them readable |
| KottiProps.InitialStart | src/Kotti.js:155-182 | the constructed session satisfies the invariant and its first start makes every configured path readable |
| KottiProps.ReadyRunsAreRunnable | src/Kotti.js:155-359 | once every configured path has a position, any inputs that never switch the tracker off can be run, and the paths stay readable |
| KottiProps.RunFromConstruction | src/Kotti.js:155-359 | a freshly constructed tracker can run any gesture that opens with a touch start and never switches the tracker off |
| KottiProps.IdleReenable | src/Kotti.js:107-122 | switching an idle tracker off and on again emits nothing and changes nothing but the flag |
| KottiProps.RunAppend | src/Kotti.js:155-359 | when a second run can follow the first, the concatenated inputs can be run, and the combined run ends where the second leaves off, emitting both runs' events in order |
| KottiProps.RunnableAppend | src/Kotti.js:155-359 | a run can continue with more inputs exactly when the concatenated inputs can be run |
| KottiProps.RunKeepsSuppression | src/Kotti.js:185-190 | until the next start a yielded lock stays yielded and the counter does not decrease |
| KottiProps.DisabledRunIsSilent | src/Kotti.js:107-122 | until it is switched on again, a disabled tracker ignores every input |
| KottiProps.YieldedMovesAreQuiet | src/Kotti.js:185-190 | after a yield, moves change nothing and emit nothing |
| KottiProps.YieldedGestureHasNoMomentum | src/Kotti.js:309-314 | a yielded gesture ends with `touchEnd` alone |
| KottiProps.LockDecidesOnSecondMove | src/Kotti.js:262-289 | after a start, the first lock move pushes nothing, the second pushes, and the tracker yields iff that move left the axis measured from the start point |
| KottiProps.IdleGestureReportsMomentum | src/Kotti.js:309-350 | a start directly followed by a quick release emits `touchStart`, `touchEnd` and a momentum event that moves no axis |
| KottiProps.LiftThenMove | src/Kotti.js:185-306 | after a lift with contacts left, the next move restarts a configured path at its own position with no samples exactly when it reverses the direction kept across the lift; otherwise it extends the path seeded at the first contact with one sample of the distance moved |
| KottiProps.HandoffAgainstDirectionRestarts | src/Kotti.js:297-306 | because the directions survive the lift, a handoff whose first move goes against the earlier direction restarts the path |
| Listeners.Add | src/utils.js:58-63 | the listener is appended to its type's list, created when absent; duplicates stay; other types are unchanged |
| Listeners.Without | src/utils.js:65-75 | the reference removal leaves no occurrence of the removed listener and never grows the list |
| Listeners.WithoutCounts | src/utils.js:65-75 | the reference removal keeps every other listener exactly as often as it was registered and shortens the list by the number of occurrences |
| Listeners.RemoveAll | src/utils.js:68-74 | the splice-and-restart loop leaves no occurrence and never grows the list |
| Listeners.RemoveAllIsWithout | src/utils.js:68-74 | the splice-and-restart loop equals the order-keeping filter |
| Listeners.Remove | src/utils.js:65-75 | an unregistered type is a no-op; otherwise the listener leaves that type's list, which stays registered; other types are unchanged |
| Listeners.RemoveIsFilter | src/utils.js:65-75 | removal keeps the other listeners in order and drops exactly the occurrences of the removed one |
| Listeners.RemoveIdempotent | src/utils.js:65-75 | removing twice equals removing once |
| Listeners.AddThenRemove | src/utils.js:58-75 | adding a new listener and removing it restores the lists; a previously unregistered type is left registered with an empty list |
| Listeners.Delivered | src/utils.js:79 | data is attached only when given; the event type never changes |
| Listeners.Deliveries | src/utils.js:77-85 | one call per listener of the event's type, in registration order, each with the delivered event; none for an unregistered type |
| Listeners.Dispatch | src/utils.js:77-85 | an unregistered type leaves the event alone and calls nobody; otherwise data is attached and each listener is called once, in order |
| Listeners.AddThenDispatch | src/utils.js:58-85 | a newly added listener is called last, after the ones registered before it |
| Listeners.RemoveThenDispatch | src/utils.js:65-85 | a removed listener is never called; the list shrinks by exactly its number of occurrences |

## Left out

- DOM wiring: binding and unbinding the four handlers, `destroy`, and the container. The
  handlers are called directly, and `preventDefault` and `stopEvent` are the `Step`'s two flags.
- The clock: `Date.now()` is the `now` parameter of every handler that reads it.
- Floating point: pixel positions are integers, and the momentum mean is an exact `real`
  rather than a double.
- Axis strings other than "x", "y", "xy" and "yx": the configuration holds one or two distinct
  axes (`Settings.ValidAxes`).
- The direction of an axis that is not followed: the source replaces the whole direction
  object with one holding only the followed axes, so the other becomes undefined. Here it keeps
  its value, which no handler reads.
- `timestamps.start` is written but never read; it is kept as `startTime`. `timestamps.end`
  is initialised to 0 and never written or read, so it is not modelled.
- Kotti.Move: `fUtils.lastPosition` lives in `src/fUtils/misc.js`, which is not part of this
  model. It is taken as the last element of the path, so a move is only modelled when every
  configured path is non-empty (`Kotti.PathsReady`). That excludes moves before the first start
  and moves after re-enabling a tracker that was disabled mid-gesture (`Kotti.Admissible`).
- Kotti.End: the momentum branch carries the same non-empty-path precondition.
- Kotti.Run: a run only contains inputs admissible in the session they reach, so it cannot
  contain a move or a momentum-allowed release before the first start, nor after the tracker
  was switched off during a gesture and on again. Switching the tracker on and off is
  otherwise unrestricted, and runs may start from the constructed tracker.
- Kotti's emission: it calls `dispatchEventWithData`, which `src/utils.js` does not define.
  Its pushes and momentum are modelled as output events, like every other emission.
- ShbTouch imports its registry from a `utils` module that is not part of this model. The
  registry modelled is `src/utils.js`.
- Listener callbacks' own effects, including a listener that changes the registry during a
  dispatch: calls are recorded as `Invocation`s.
- Listeners.Add: type names inherited from `Object.prototype` (`toString`, `constructor`,
  `__proto__` and the like) are outside the model. The registry is a plain object, so
  `type in target.listeners` already holds for them. Adding such a type throws. Dispatching
  one whose inherited member has length 0 or no length (`toString`, `valueOf`, `__proto__`)
  attaches the data and calls nobody; dispatching one with a positive length (`constructor`,
  `hasOwnProperty`) throws. Removing one with a defined callback finds no match and changes nothing. The model
  treats every type name as an ordinary, initially absent key. The same applies to
  Listeners.Remove and Listeners.Dispatch.
- Listeners.Delivered: JavaScript truthiness of the data argument is reduced to
  `Option`. Every falsy value (absent, `null`, `0`, `""`, `false`) is `None`.
- `getTranslatedNodePosition` (DOM and CSS matrices), `easeLinear` and `easeOutCubic` (float
  easing, unused by the trackers), `src/fUtils` and `src/utils/lodash.js` (generic object
  utilities, replaced by plain records and sequences), and the build configuration.
