/** The earlier tracker (src/Kotti.js): always follows the first contact, runs every move
    through the path engine, decides the lock, then pushes (except on the first counted lock
    move), skips momentum once the lock yielded but otherwise always emits it, and restarts
    the path when a finger lifts while others stay. */
module Kotti {
  import opened Touches
  import opened Settings
  import opened Tracking

  datatype Session = Session(
    tracks: PerAxis<AxisTrack>,
    startPoint: Option<Point>,
    startTime: int,
    moveTime: int,
    moveCount: nat,
    ignoreMovements: bool,
    isEnabled: bool,
    isTouchActive: bool)

  /** The session a freshly constructed tracker holds. */
  const Initial: Session := Session(PerAxis(EmptyTrack, EmptyTrack), None, 0, 0, 0, false, true, false)

  /** What every reachable session satisfies: settled tracks, at most two counted moves,
      `ignoreMovements` only once both were counted, and no active gesture while disabled. */
  predicate Inv(s: Session) {
    && Settled(s.tracks.x)
    && Settled(s.tracks.y)
    && s.moveCount <= 2
    && (s.ignoreMovements ==> s.moveCount == 2)
    && (!s.isEnabled ==> !s.isTouchActive)
  }

  /** Every configured axis has a last position. The source reads it through
      `fUtils.lastPosition`, whose result on an empty path is not part of this model. */
  predicate PathsReady(cfg: Config, s: Session) {
    forall a: Axis :: a in cfg.axes ==> |s.tracks.Get(a).path| > 0
  }

  /** `_eventToPoint`: always the first contact, whichever finger changed. */
  function FirstPoint(ev: Snapshot): Point
    requires |ev.touches| > 0
  {
    ev.touches[0].Position()
  }

  /** `_onTouchStart`: every enabled start restarts the whole gesture at the first contact,
      clears the lock, and emits `touchStart`. */
  function Start(cfg: Config, s: Session, ev: Snapshot, now: int): (r: Step<Session>)
    requires |ev.touches| > 0
    ensures !s.isEnabled ==> r == Step(s, [], false, false)
    ensures s.isEnabled ==>
              && r.out == [TouchStart] && r.preventDefault && !r.stopPropagation
              && r.state.isTouchActive && r.state.isEnabled
              && r.state.startPoint == Some(FirstPoint(ev))
              && r.state.startTime == now && r.state.moveTime == now
              && !r.state.ignoreMovements && r.state.moveCount == 0
              && (forall a: Axis :: a in cfg.axes ==> r.state.tracks.Get(a) == AxisTrack([FirstPoint(ev).Get(a)], [], 0, 0))
              && (forall a: Axis :: a !in cfg.axes ==> r.state.tracks.Get(a) == s.tracks.Get(a))
              && PathsReady(cfg, r.state)
    ensures Inv(s) ==> Inv(r.state)
  {
    if !s.isEnabled then Step(s, [], false, false)
    else
      var p := FirstPoint(ev);
      Step(s.(isTouchActive := true, startPoint := Some(p), startTime := now, moveTime := now,
              ignoreMovements := false, moveCount := 0, tracks := Restarted(cfg.axes, s.tracks, p)),
           [TouchStart], true, false)
  }

  /** The part of `_onTouchMove` that follows the path engine: with a lock, the first counted
      move returns before pushing; the second decides, and pushes even when it yields. */
  function Arbitrate(cfg: Config, s: Session, p: Point, push: PerAxis<Push>): (r: Step<Session>)
    requires WellFormed(cfg)
    ensures !cfg.lock ==> r == Step(s, [PushBy(push)], true, false)
    ensures cfg.lock ==> r.preventDefault && r.stopPropagation
    ensures cfg.lock && s.moveCount >= 2 ==> r.state == s && r.out == [PushBy(push)]
    ensures cfg.lock && s.moveCount == 0 ==> r.state == s.(moveCount := 1) && r.out == []
    ensures cfg.lock && s.moveCount == 1 && s.startPoint.None? ==> r.state == s.(moveCount := 2) && r.out == []
    ensures cfg.lock && s.moveCount == 1 && s.startPoint.Some? ==>
              && r.state == s.(moveCount := 2, ignoreMovements := s.ignoreMovements || LeavesAxis(cfg.axes[0], s.startPoint.value, p))
              && r.out == [PushBy(push)]
  {
    if !cfg.lock then Step(s, [PushBy(push)], true, false)
    else if s.moveCount >= 2 then Step(s, [PushBy(push)], true, true)
    else
      var counted := s.(moveCount := s.moveCount + 1);
      if counted.moveCount < 2 then Step(counted, [], true, true)
      else match s.startPoint
        case None => Step(counted, [], true, true)
        case Some(start) =>
          var counted' := if LeavesAxis(cfg.axes[0], start, p) then counted.(ignoreMovements := true) else counted;
          Step(counted', [PushBy(push)], true, true)
  }

  /** `_onTouchMove`: the default action is prevented whenever enabled; once the lock
      yielded nothing else happens; otherwise the first contact's position goes through the
      path engine before the lock is consulted. */
  function Move(cfg: Config, s: Session, ev: Snapshot, now: int): (r: Step<Session>)
    requires WellFormed(cfg)
    requires |ev.touches| > 0
    requires s.isEnabled && !s.ignoreMovements ==> PathsReady(cfg, s)
    ensures !s.isEnabled ==> r == Step(s, [], false, false)
    ensures s.isEnabled && s.ignoreMovements ==> r == Step(s, [], true, false)
    ensures s.isEnabled && !s.ignoreMovements ==>
              && (forall a: Axis :: a in cfg.axes ==>
                    r.state.tracks.Get(a) == Advance(s.tracks.Get(a), FirstPoint(ev).Get(a), now - s.moveTime).track)
              && (forall a: Axis :: a !in cfg.axes ==> r.state.tracks.Get(a) == s.tracks.Get(a))
              && r.state.moveTime == now
              && r.preventDefault
              && r.stopPropagation == cfg.lock
              && (r.out != [] ==> |r.out| == 1 && r.out[0].PushBy?)
              && (r.out != [] ==> forall a: Axis :: a in cfg.axes ==>
                    r.out[0].push.Get(a) == Advance(s.tracks.Get(a), FirstPoint(ev).Get(a), now - s.moveTime).push)
              && (r.out != [] ==> forall a: Axis :: a !in cfg.axes ==> r.out[0].push.Get(a) == Push(0, 0))
              && (r.out == [] <==> cfg.lock && (s.moveCount == 0 || (s.moveCount == 1 && s.startPoint.None?)))
    ensures r.state.isTouchActive == s.isTouchActive && r.state.isEnabled == s.isEnabled
    ensures r.state.startPoint == s.startPoint && r.state.startTime == s.startTime
    ensures s.ignoreMovements ==> r.state.ignoreMovements
    ensures s.isEnabled && !s.ignoreMovements ==>
              (r.state.ignoreMovements <==>
                 cfg.lock && s.moveCount == 1 && s.startPoint.Some? && LeavesAxis(cfg.axes[0], s.startPoint.value, FirstPoint(ev)))
    ensures s.isEnabled && !s.ignoreMovements && cfg.lock && s.moveCount < 2 ==> r.state.moveCount == s.moveCount + 1
    ensures !(s.isEnabled && !s.ignoreMovements && cfg.lock && s.moveCount < 2) ==> r.state.moveCount == s.moveCount
    ensures |r.out| <= 1
    ensures PathsReady(cfg, s) ==> PathsReady(cfg, r.state)
    ensures Inv(s) ==> Inv(r.state)
  {
    if !s.isEnabled then Step(s, [], false, false)
    else if s.ignoreMovements then Step(s, [], true, false)
    else
      var p := FirstPoint(ev);
      var m := AdvanceAll(cfg.axes, s.tracks, p, now - s.moveTime);
      Arbitrate(cfg, s.(tracks := m.tracks, moveTime := now), p, m.push)
  }

  /** Momentum is only estimated when it is enabled, the lock did not yield, and the finger
      did not rest longer than the configured limit before lifting. */
  predicate MomentumAllowed(cfg: Config, s: Session, now: int) {
    cfg.momentum && !s.ignoreMovements && now - s.moveTime <= cfg.maxTimeDiffForMomentum
  }

  /** `_onTouchEnd`: with contacts remaining in the target, every configured axis starts a new
      path at the first contact; otherwise the gesture ends with `touchEnd`, followed by the
      momentum event whenever momentum is allowed, even if it is zero on every axis. */
  function End(cfg: Config, s: Session, ev: Snapshot, now: int): (r: Step<Session>)
    requires WellFormedSnapshot(ev)
    requires s.isEnabled && ev.targetCount == 0 && MomentumAllowed(cfg, s, now) ==> PathsReady(cfg, s)
    ensures !s.isEnabled ==> r == Step(s, [], false, false)
    ensures s.isEnabled && ev.targetCount > 0 ==>
              && r.out == [] && r.preventDefault && !r.stopPropagation
              && r.state == s.(tracks := r.state.tracks)
              && (forall a: Axis :: a in cfg.axes ==>
                    r.state.tracks.Get(a) == s.tracks.Get(a).(path := [FirstPoint(ev).Get(a)], speed := []))
              && (forall a: Axis :: a !in cfg.axes ==> r.state.tracks.Get(a) == s.tracks.Get(a))
    ensures s.isEnabled && ev.targetCount == 0 ==>
              && r.state == s.(isTouchActive := false)
              && r.preventDefault && !r.stopPropagation
              && (!MomentumAllowed(cfg, s, now) ==> r.out == [TouchEnd])
              && (MomentumAllowed(cfg, s, now) ==>
                    r.out == [TouchEnd, Momentum(Releases(cfg.axes, s.tracks, cfg.minPxForMomentum, cfg.maxPointsForMomentum))])
    ensures PathsReady(cfg, s) ==> PathsReady(cfg, r.state)
    ensures s.ignoreMovements == r.state.ignoreMovements && s.moveCount == r.state.moveCount
    ensures Inv(s) ==> Inv(r.state)
  {
    if !s.isEnabled then Step(s, [], false, false)
    else if ev.targetCount > 0 then
      Step(s.(tracks := Reseeded(cfg.axes, s.tracks, FirstPoint(ev))), [], true, false)
    else
      var s1 := s.(isTouchActive := false);
      if !MomentumAllowed(cfg, s, now) then Step(s1, [TouchEnd], true, false)
      else
        var m := Releases(cfg.axes, s.tracks, cfg.minPxForMomentum, cfg.maxPointsForMomentum);
        Step(s1, [TouchEnd, Momentum(m)], true, false)
  }

  /** `_onTouchCancel`: the gesture stops being active; no event, no momentum. */
  function Cancel(s: Session): (r: Step<Session>)
    ensures !s.isEnabled ==> r == Step(s, [], false, false)
    ensures s.isEnabled ==> r == Step(s.(isTouchActive := false), [], true, false)
  {
    if !s.isEnabled then Step(s, [], false, false)
    else Step(s.(isTouchActive := false), [], true, false)
  }

  /** `setEnabled`: records the flag; disabling during an active gesture clears the configured
      buffers and closes the gesture with exactly one `touchEnd`. */
  function SetEnabled(cfg: Config, s: Session, enabled: bool): (r: Step<Session>)
    ensures r.state.isEnabled == enabled
    ensures !enabled && s.isTouchActive ==>
              && r.out == [TouchEnd]
              && r.state == s.(isEnabled := false, isTouchActive := false, tracks := Cleared(cfg.axes, s.tracks))
    ensures !(!enabled && s.isTouchActive) ==> r == Step(s.(isEnabled := enabled), [], false, false)
    ensures !r.preventDefault && !r.stopPropagation
    ensures Inv(s) ==> Inv(r.state)
  {
    var s1 := s.(isEnabled := enabled);
    if !enabled && s.isTouchActive then
      Step(s1.(tracks := Cleared(cfg.axes, s.tracks), isTouchActive := false), [TouchEnd], false, false)
    else
      Step(s1, [], false, false)
  }

  // RUNS OF INPUTS

  datatype Input =
    | StartIn(ev: Snapshot, now: int)
    | MoveIn(ev: Snapshot, now: int)
    | EndIn(ev: Snapshot, now: int)
    | CancelIn
    | EnableIn(enabled: bool)

  /** Start and move events carry at least one contact; every snapshot is well formed. */
  predicate Ready(i: Input) {
    && ((i.StartIn? || i.MoveIn?) ==> |i.ev.touches| > 0)
    && ((i.StartIn? || i.MoveIn? || i.EndIn?) ==> WellFormedSnapshot(i.ev))
  }

  /** The handler for `i` can run in `s`: the input is ready and, wherever the handler reads
      the last position of a path, every configured path has one. That rules out a move
      before the first start and a move after re-enabling a tracker that was switched off
      mid-gesture; every other input, re-enabling included, is admissible. */
  predicate Admissible(cfg: Config, s: Session, i: Input) {
    && Ready(i)
    && (i.MoveIn? && s.isEnabled && !s.ignoreMovements ==> PathsReady(cfg, s))
    && (i.EndIn? && s.isEnabled && i.ev.targetCount == 0 && MomentumAllowed(cfg, s, i.now) ==> PathsReady(cfg, s))
  }

  function Apply(cfg: Config, s: Session, i: Input): (r: Step<Session>)
    requires WellFormed(cfg) && Inv(s) && Admissible(cfg, s, i)
    ensures Inv(r.state)
    ensures !i.StartIn? ==> (s.ignoreMovements ==> r.state.ignoreMovements) && s.moveCount <= r.state.moveCount
    ensures !s.isEnabled && !i.EnableIn? ==> r == Step(s, [], false, false)
    ensures PathsReady(cfg, s) && !(i.EnableIn? && s.isTouchActive) ==> PathsReady(cfg, r.state)
    ensures i.StartIn? && s.isEnabled ==> PathsReady(cfg, r.state)
  {
    match i
    case StartIn(ev, now) => Start(cfg, s, ev, now)
    case MoveIn(ev, now) => Move(cfg, s, ev, now)
    case EndIn(ev, now) => End(cfg, s, ev, now)
    case CancelIn => Cancel(s)
    case EnableIn(e) => SetEnabled(cfg, s, e)
  }

  /** Every input of the sequence is admissible in the session the inputs before it lead to. */
  predicate Runnable(cfg: Config, s: Session, inputs: seq<Input>)
    decreases |inputs|
  {
    && WellFormed(cfg)
    && Inv(s)
    && (inputs == [] ||
          (Admissible(cfg, s, inputs[0]) && Runnable(cfg, Apply(cfg, s, inputs[0]).state, inputs[1..])))
  }

  /** The tracker fed `inputs` in order. */
  function Run(cfg: Config, s: Session, inputs: seq<Input>): (r: Trace<Session>)
    requires Runnable(cfg, s, inputs)
    ensures Inv(r.state)
    decreases |inputs|
  {
    if inputs == [] then Trace(s, [])
    else
      var step := Apply(cfg, s, inputs[0]);
      var rest := Run(cfg, step.state, inputs[1..]);
      Trace(rest.state, step.out + rest.out)
  }
}
