/** The evolved touch tracker (src/ShbTouch.js): multi-finger handoff, a sticky two-move axis
    lock, and momentum on release. Each handler is a pure function from the session before
    the native event to a `Step`: the session after it, the events emitted in order, and
    whether the native event was suppressed. */
module ShbTouch {
  import opened Touches
  import opened Settings
  import opened Tracking

  datatype Session = Session(
    tracks: PerAxis<AxisTrack>,
    startPoint: Option<Point>,
    startTime: int,
    moveTime: int,
    moveCount: nat,
    ignoreMovements: bool,
    stopEvents: bool,
    activeFinger: int,
    isTouchActive: bool,
    isScrollingDisabled: bool)

  /** The session a freshly constructed tracker holds. */
  const Initial: Session :=
    Session(PerAxis(EmptyTrack, EmptyTrack), None, 0, 0, 0, false, false, 0, false, false)

  /** What every reachable session satisfies: settled tracks, at most two counted moves, the
      suppression flags only once the arbitration has counted both moves, and a finger index
      that is valid or the -1 sentinel. */
  predicate Inv(s: Session) {
    && Settled(s.tracks.x)
    && Settled(s.tracks.y)
    && s.moveCount <= 2
    && (s.ignoreMovements ==> s.moveCount == 2)
    && (s.stopEvents ==> s.moveCount == 2)
    && s.activeFinger >= -1
    && (s.isScrollingDisabled ==> !s.isTouchActive)
  }

  /** What the lock keeps true of a reachable session: only a lock can yield, and until the
      lock has claimed the gesture no configured axis holds a speed sample, because probing,
      yielding and every restart leave the sample buffers empty. */
  predicate LockInv(cfg: Config, s: Session) {
    && (s.ignoreMovements ==> cfg.lock)
    && (cfg.lock && (s.moveCount < 2 || s.ignoreMovements) ==>
          forall a: Axis :: a in cfg.axes ==> s.tracks.Get(a).speed == [])
  }

  // FINGER TRACKER

  /** The index in `touches` of the last contact with identifier `id`, or 0 when none has it. */
  function ActiveFingerIndex(touches: seq<Touch>, id: int): (i: nat)
    ensures |touches| > 0 ==> i < |touches|
    ensures (exists j :: 0 <= j < |touches| && touches[j].id == id) ==>
              i < |touches| && touches[i].id == id && forall j :: i < j < |touches| ==> touches[j].id != id
    ensures (forall j :: 0 <= j < |touches| ==> touches[j].id != id) ==> i == 0
    decreases |touches|
  {
    if |touches| == 0 then 0
    else if Last(touches).id == id then |touches| - 1
    else
      var front := touches[..|touches| - 1];
      assert forall j :: 0 <= j < |front| ==> front[j] == touches[j];
      ActiveFingerIndex(front, id)
  }

  /** `_checkForNewStartParams`: when the resolved finger differs from the stored one, or the
      caller forces it, the tracker adopts that finger and restarts every configured axis at
      its position; otherwise nothing changes. */
  function CheckForNewStart(cfg: Config, s: Session, ev: Snapshot, now: int, force: bool): (r: Session)
    requires |ev.touches| > 0
    ensures r.activeFinger == ActiveFingerIndex(ev.touches, ev.changedId)
    ensures 0 <= r.activeFinger < |ev.touches|
    ensures s.activeFinger != r.activeFinger || force ==>
              && r.startPoint == Some(ev.touches[r.activeFinger].Position())
              && r.startTime == now && r.moveTime == now
              && (forall a: Axis :: a in cfg.axes ==> r.tracks.Get(a) == AxisTrack([ev.touches[r.activeFinger].Position().Get(a)], [], 0, 0))
              && (forall a: Axis :: a !in cfg.axes ==> r.tracks.Get(a) == s.tracks.Get(a))
    ensures s.activeFinger == r.activeFinger && !force ==> r == s
    ensures r.(tracks := s.tracks, startPoint := s.startPoint, startTime := s.startTime,
               moveTime := s.moveTime, activeFinger := s.activeFinger) == s
  {
    var finger := ActiveFingerIndex(ev.touches, ev.changedId);
    if s.activeFinger != finger || force then
      var p := ev.touches[finger].Position();
      s.(activeFinger := finger, startPoint := Some(p), startTime := now, moveTime := now,
         tracks := Restarted(cfg.axes, s.tracks, p))
    else
      s
  }

  // HANDLERS

  /** `_onTouchStart`: marks the gesture active and emits `touchStart`; a start with fewer
      than two contacts clears the arbitration, one with more keeps it (the first finger has
      already decided); in both cases the finger is resolved afresh. */
  function Start(cfg: Config, s: Session, ev: Snapshot, now: int): (r: Step<Session>)
    requires |ev.touches| > 0
    ensures s.isScrollingDisabled ==> r == Step(s, [], false, false)
    ensures !s.isScrollingDisabled ==>
              && r.out == [TouchStart]
              && !r.preventDefault && !r.stopPropagation
              && r.state.isTouchActive
              && r.state.isScrollingDisabled == s.isScrollingDisabled
              && 0 <= r.state.activeFinger < |ev.touches|
              && r.state.activeFinger == ActiveFingerIndex(ev.touches, ev.changedId)
              && r.state.startPoint == Some(ev.touches[r.state.activeFinger].Position())
              && r.state.startTime == now && r.state.moveTime == now
              && (forall a: Axis :: a in cfg.axes ==>
                    r.state.tracks.Get(a) == AxisTrack([ev.touches[r.state.activeFinger].Position().Get(a)], [], 0, 0))
              && (forall a: Axis :: a !in cfg.axes ==> r.state.tracks.Get(a) == s.tracks.Get(a))
    ensures !s.isScrollingDisabled && |ev.touches| < 2 ==>
              !r.state.ignoreMovements && !r.state.stopEvents && r.state.moveCount == 0
    ensures !s.isScrollingDisabled && |ev.touches| >= 2 ==>
              && r.state.ignoreMovements == s.ignoreMovements
              && r.state.stopEvents == s.stopEvents
              && r.state.moveCount == s.moveCount
    ensures Inv(s) ==> Inv(r.state)
  {
    if s.isScrollingDisabled then Step(s, [], false, false)
    else
      var s1 := s.(isTouchActive := true);
      var s2 := if |ev.touches| < 2 then s1.(ignoreMovements := false, stopEvents := false, moveCount := 0) else s1;
      Step(CheckForNewStart(cfg, s2, ev, now, true), [TouchStart], false, false)
  }

  /** The outcome of the axis lock for one move, decided on the session after the finger
      check and the move's position `p`. */
  datatype Verdict =
    | Unlocked    // no lock, or the lock has already been decided
    | Probing     // the first counted move: too early to decide
    | Unanchored  // the second counted move with no start point: the source throws here
    | Yield       // the finger left the axis: ignore the rest of the gesture
    | Claim       // the finger follows the axis: own the gesture

  function Arbitrate(cfg: Config, s: Session, p: Point): (v: Verdict)
    requires WellFormed(cfg)
    ensures v == Unlocked <==> !cfg.lock || s.moveCount >= 2
    ensures v == Probing <==> cfg.lock && s.moveCount == 0
    ensures v == Unanchored <==> cfg.lock && s.moveCount == 1 && s.startPoint.None?
    ensures v == Yield <==>
              cfg.lock && s.moveCount == 1 && s.startPoint.Some? && LeavesAxis(cfg.axes[0], s.startPoint.value, p)
    ensures v == Claim <==>
              cfg.lock && s.moveCount == 1 && s.startPoint.Some? && !LeavesAxis(cfg.axes[0], s.startPoint.value, p)
  {
    if !cfg.lock || s.moveCount >= 2 then Unlocked
    else if s.moveCount + 1 < 2 then Probing
    else match s.startPoint
      case None => Unanchored
      case Some(start) => if LeavesAxis(cfg.axes[0], start, p) then Yield else Claim
  }

  /** The direction and path engine applied to the move's position `p`: every configured axis
      advances, `pushBy` goes out when some axis moved, and the native event is suppressed
      when the gesture owns the input. */
  function Follow(cfg: Config, s: Session, p: Point, now: int): (r: Step<Session>)
    ensures forall a: Axis :: a in cfg.axes ==>
              r.state.tracks.Get(a) == Advance(s.tracks.Get(a), p.Get(a), now - s.moveTime).track
    ensures forall a: Axis :: a !in cfg.axes ==> r.state.tracks.Get(a) == s.tracks.Get(a)
    ensures r.state == s.(tracks := r.state.tracks, moveTime := now)
    ensures r.preventDefault == s.stopEvents && r.stopPropagation == s.stopEvents
    ensures |r.out| <= 1 && forall o :: o in r.out ==> o.PushBy?
    ensures r.out != [] <==> exists a: Axis :: a in cfg.axes && Delta(s.tracks.Get(a), p.Get(a)) != 0
    ensures forall a: Axis :: r.out != [] && a in cfg.axes ==>
              r.out[0].push.Get(a) == Advance(s.tracks.Get(a), p.Get(a), now - s.moveTime).push
    ensures forall a: Axis :: r.out != [] && a !in cfg.axes ==> r.out[0].push.Get(a) == Push(0, 0)
  {
    var m := AdvanceAll(cfg.axes, s.tracks, p, now - s.moveTime);
    var out := if m.push.x.px == 0 && m.push.y.px == 0 then [] else [PushBy(m.push)];
    Step(s.(tracks := m.tracks, moveTime := now), out, s.stopEvents, s.stopEvents)
  }

  /** The part of `_onTouchMove` after the finger check, on the session `s` that check left
      and the position `p` of the active finger: the lock's verdict decides whether the move
      is only counted, ends the gesture's interest, or reaches the path engine. */
  function ProcessMove(cfg: Config, s: Session, p: Point, now: int): (r: Step<Session>)
    requires WellFormed(cfg)
    ensures match Arbitrate(cfg, s, p)
            case Unlocked => r == Follow(cfg, s, p, now)
            case Probing => r == Step(s.(moveCount := 1), [], true, true)
            case Unanchored => r == Step(s.(moveCount := 2), [], false, false)
            case Yield => r == Step(s.(moveCount := 2, ignoreMovements := true), [], false, false)
            case Claim => r == Follow(cfg, s.(moveCount := 2, stopEvents := true), p, now)
                          && r.preventDefault && r.stopPropagation
    ensures s.ignoreMovements ==> r.state.ignoreMovements
    ensures s.stopEvents ==> r.state.stopEvents
    ensures s.moveCount <= r.state.moveCount
    ensures r.state.activeFinger == s.activeFinger
    ensures r.state.isTouchActive == s.isTouchActive && r.state.isScrollingDisabled == s.isScrollingDisabled
    ensures |r.out| <= 1 && forall o :: o in r.out ==> o.PushBy?
    ensures Inv(s) ==> Inv(r.state)
  {
    var counted := s.(moveCount := s.moveCount + 1);
    match Arbitrate(cfg, s, p)
    case Unlocked => Follow(cfg, s, p, now)
    case Probing => Step(counted, [], true, true)
    case Unanchored => Step(counted, [], false, false)
    case Yield => Step(counted.(ignoreMovements := true), [], false, false)
    case Claim => Follow(cfg, counted.(stopEvents := true), p, now)
  }

  /** `_onTouchMove`: ignored while disabled or once the lock yielded; otherwise the finger is
      re-resolved and the move processed at that finger's position. */
  function Move(cfg: Config, s: Session, ev: Snapshot, now: int): (r: Step<Session>)
    requires WellFormed(cfg)
    requires |ev.touches| > 0
    ensures s.isScrollingDisabled || s.ignoreMovements ==> r == Step(s, [], false, false)
    ensures !s.isScrollingDisabled && !s.ignoreMovements ==>
              && 0 <= r.state.activeFinger < |ev.touches|
              && r.state.activeFinger == ActiveFingerIndex(ev.touches, ev.changedId)
              && var s1 := CheckForNewStart(cfg, s, ev, now, false);
                 r == ProcessMove(cfg, s1, ev.touches[s1.activeFinger].Position(), now)
    ensures r.state.isTouchActive == s.isTouchActive && r.state.isScrollingDisabled == s.isScrollingDisabled
    ensures s.ignoreMovements ==> r.state.ignoreMovements
    ensures s.stopEvents ==> r.state.stopEvents
    ensures s.moveCount <= r.state.moveCount
    ensures |r.out| <= 1 && forall o :: o in r.out ==> o.PushBy?
    ensures Inv(s) ==> Inv(r.state)
  {
    if s.isScrollingDisabled || s.ignoreMovements then Step(s, [], false, false)
    else
      var s1 := CheckForNewStart(cfg, s, ev, now, false);
      ProcessMove(cfg, s1, ev.touches[s1.activeFinger].Position(), now)
  }

  /** Momentum is only estimated when it is enabled and the finger did not rest longer than
      the configured limit before lifting. */
  predicate MomentumAllowed(cfg: Config, s: Session, now: int) {
    cfg.momentum && now - s.moveTime <= cfg.maxTimeDiffForMomentum
  }

  /** `_onTouchEnd`: the finger tracker is always marked for re-resolution; with contacts
      remaining nothing else happens; otherwise the gesture ends with one `touchEnd`, followed
      by the momentum event when some configured axis has a positive estimate. */
  function End(cfg: Config, s: Session, ev: Snapshot, now: int): (r: Step<Session>)
    ensures s.isScrollingDisabled ==> r == Step(s, [], false, false)
    ensures !s.isScrollingDisabled && |ev.touches| > 0 ==> r == Step(s.(activeFinger := -1), [], false, false)
    ensures !s.isScrollingDisabled && |ev.touches| == 0 ==>
              && r.state == s.(activeFinger := -1, isTouchActive := false)
              && 1 <= |r.out| <= 2 && r.out[0] == TouchEnd && multiset(r.out)[TouchEnd] == 1
              && !r.preventDefault && !r.stopPropagation
    ensures (exists k :: 0 <= k < |r.out| && r.out[k].Momentum?) <==>
              && !s.isScrollingDisabled && |ev.touches| == 0 && MomentumAllowed(cfg, s, now)
              && AnyMomentum(Releases(cfg.axes, s.tracks, cfg.minPxForMomentum, cfg.maxPointsForMomentum))
    ensures |r.out| == 2 ==>
              r.out[1] == Momentum(Releases(cfg.axes, s.tracks, cfg.minPxForMomentum, cfg.maxPointsForMomentum))
    ensures Inv(s) ==> Inv(r.state)
  {
    if s.isScrollingDisabled then Step(s, [], false, false)
    else
      var s1 := s.(activeFinger := -1);
      if |ev.touches| > 0 then Step(s1, [], false, false)
      else
        var s2 := s1.(isTouchActive := false);
        if !MomentumAllowed(cfg, s, now) then Step(s2, [TouchEnd], false, false)
        else
          var m := Releases(cfg.axes, s.tracks, cfg.minPxForMomentum, cfg.maxPointsForMomentum);
          Step(s2, if AnyMomentum(m) then [TouchEnd, Momentum(m)] else [TouchEnd], false, false)
  }

  /** `_onTouchCancel`: the gesture stops being active; no event, no momentum. */
  function Cancel(s: Session): (r: Step<Session>)
    ensures s.isScrollingDisabled ==> r == Step(s, [], false, false)
    ensures !s.isScrollingDisabled ==> !r.state.isTouchActive
    ensures r.state.(isTouchActive := s.isTouchActive) == s
    ensures r.out == [] && !r.preventDefault && !r.stopPropagation
  {
    if s.isScrollingDisabled then Step(s, [], false, false)
    else Step(s.(isTouchActive := false), [], false, false)
  }

  /** `disableScrolling`: records the flag; disabling during an active gesture clears the
      configured buffers and closes the gesture with exactly one `touchEnd`. */
  function DisableScrolling(cfg: Config, s: Session, disabled: bool): (r: Step<Session>)
    ensures r.state.isScrollingDisabled == disabled
    ensures disabled && s.isTouchActive ==>
              && r.out == [TouchEnd]
              && r.state == s.(isScrollingDisabled := true, isTouchActive := false,
                               tracks := Cleared(cfg.axes, s.tracks))
    ensures !(disabled && s.isTouchActive) ==> r == Step(s.(isScrollingDisabled := disabled), [], false, false)
    ensures !r.preventDefault && !r.stopPropagation
    ensures Inv(s) ==> Inv(r.state)
  {
    var s1 := s.(isScrollingDisabled := disabled);
    if disabled && s.isTouchActive then
      Step(s1.(tracks := Cleared(cfg.axes, s.tracks), isTouchActive := false), [TouchEnd], false, false)
    else
      Step(s1, [], false, false)
  }

  // RUNS OF INPUTS

  /** One call into the tracker: a native touch event at time `now`, or the public switch. */
  datatype Input =
    | StartIn(ev: Snapshot, now: int)
    | MoveIn(ev: Snapshot, now: int)
    | EndIn(ev: Snapshot, now: int)
    | CancelIn
    | DisableIn(disabled: bool)

  /** Start and move events always carry the finger that caused them. */
  predicate Ready(i: Input) {
    (i.StartIn? || i.MoveIn?) ==> |i.ev.touches| > 0
  }

  /** Every input of the sequence is ready. */
  predicate Runnable(inputs: seq<Input>)
    decreases |inputs|
  {
    inputs == [] || (Ready(inputs[0]) && Runnable(inputs[1..]))
  }

  /** The only input that clears the arbitration: a start with fewer than two contacts. */
  predicate Rearms(i: Input) {
    i.StartIn? && |i.ev.touches| < 2
  }

  function Apply(cfg: Config, s: Session, i: Input): (r: Step<Session>)
    requires WellFormed(cfg) && Ready(i)
    ensures Inv(s) ==> Inv(r.state)
    ensures !Rearms(i) ==>
              && (s.ignoreMovements ==> r.state.ignoreMovements)
              && (s.stopEvents ==> r.state.stopEvents)
              && s.moveCount <= r.state.moveCount
    ensures Inv(s) && s.isScrollingDisabled && i != DisableIn(false) ==> r == Step(s, [], false, false)
  {
    match i
    case StartIn(ev, now) => Start(cfg, s, ev, now)
    case MoveIn(ev, now) => Move(cfg, s, ev, now)
    case EndIn(ev, now) => End(cfg, s, ev, now)
    case CancelIn => Cancel(s)
    case DisableIn(d) => DisableScrolling(cfg, s, d)
  }

  /** The tracker fed `inputs` in order: the final session and every event emitted. */
  function Run(cfg: Config, s: Session, inputs: seq<Input>): Trace<Session>
    requires WellFormed(cfg)
    requires Runnable(inputs)
    decreases |inputs|
  {
    if inputs == [] then Trace(s, [])
    else
      var step := Apply(cfg, s, inputs[0]);
      var rest := Run(cfg, step.state, inputs[1..]);
      Trace(rest.state, step.out + rest.out)
  }
}
