/** Properties of the ShbTouch tracker that span several handler calls. */
module ShbTouchProps {
  import opened Touches
  import opened Settings
  import opened Tracking
  import opened ShbTouch

  lemma InitialInv()
    ensures Inv(Initial)
  {
  }

  /** Concatenating two runnable input sequences gives a runnable one. */
  lemma {:induction false} RunnableAppend(a: seq<Input>, b: seq<Input>)
    requires Runnable(a) && Runnable(b)
    ensures Runnable(a + b)
    decreases |a|
  {
    if a == [] {
      assert a + b == b;
    } else {
      assert (a + b)[0] == a[0];
      assert (a + b)[1..] == a[1..] + b;
      RunnableAppend(a[1..], b);
    }
  }

  /** One step of a run: the first input's step followed by the run of the rest. */
  lemma RunCons(cfg: Config, s: Session, inputs: seq<Input>)
    requires WellFormed(cfg)
    requires Runnable(inputs)
    requires inputs != []
    ensures Run(cfg, s, inputs) ==
              var step := Apply(cfg, s, inputs[0]);
              var rest := Run(cfg, step.state, inputs[1..]);
              Trace(rest.state, step.out + rest.out)
  {
  }

  /** A run followed by one more input ends with that input's step. */
  lemma RunThenOne(cfg: Config, s: Session, a: seq<Input>, i: Input)
    requires WellFormed(cfg) && Runnable(a) && Ready(i)
    ensures Runnable(a + [i])
    ensures Run(cfg, s, a + [i]).out == Run(cfg, s, a).out + Apply(cfg, Run(cfg, s, a).state, i).out
  {
    var first := Run(cfg, s, a);
    var step := Apply(cfg, first.state, i);
    assert Runnable([i][1..]);
    RunCons(cfg, first.state, [i]);
    assert Run(cfg, first.state, [i]) == Trace(step.state, step.out + []);
    RunAppend(cfg, s, a, [i]);
  }

  /** `Apply` made total: inputs it is not defined for leave the session alone. */
  function Total(cfg: Config, s: Session, i: Input): Step<Session> {
    if WellFormed(cfg) && Ready(i) then Apply(cfg, s, i) else Step(s, [], false, false)
  }

  lemma {:induction false} RunIsChain(cfg: Config, s: Session, inputs: seq<Input>)
    requires WellFormed(cfg) && Runnable(inputs)
    ensures Run(cfg, s, inputs) == Chain((st, i) => Total(cfg, st, i), s, inputs)
    decreases |inputs|
  {
    if inputs != [] {
      RunIsChain(cfg, Apply(cfg, s, inputs[0]).state, inputs[1..]);
    }
  }

  /** Feeding two runs one after the other is one run of the concatenated inputs. */
  lemma RunAppend(cfg: Config, s: Session, a: seq<Input>, b: seq<Input>)
    requires WellFormed(cfg)
    requires Runnable(a)
    requires Runnable(b)
    ensures Runnable(a + b)
    ensures Run(cfg, s, a + b) ==
              var first := Run(cfg, s, a);
              var second := Run(cfg, first.state, b);
              Trace(second.state, first.out + second.out)
  {
    RunnableAppend(a, b);
    var f := (st, i) => Total(cfg, st, i);
    RunIsChain(cfg, s, a);
    RunIsChain(cfg, s, a + b);
    RunIsChain(cfg, Run(cfg, s, a).state, b);
    ChainAppend(f, s, a, b);
  }

  /** Every run from a session satisfying the invariant ends in one that does. */
  lemma {:induction false} RunPreservesInv(cfg: Config, s: Session, inputs: seq<Input>)
    requires WellFormed(cfg)
    requires Runnable(inputs)
    requires Inv(s)
    ensures Inv(Run(cfg, s, inputs).state)
    decreases |inputs|
  {
    if inputs != [] {
      RunPreservesInv(cfg, Apply(cfg, s, inputs[0]).state, inputs[1..]);
    }
  }

  /** The constructed tracker keeps the lock invariant. */
  lemma InitialLockInv(cfg: Config)
    ensures LockInv(cfg, Initial)
  {
  }

  /** Every handler keeps the lock invariant. */
  lemma ApplyKeepsLockInv(cfg: Config, s: Session, i: Input)
    requires WellFormed(cfg) && Ready(i) && Inv(s) && LockInv(cfg, s)
    ensures LockInv(cfg, Apply(cfg, s, i).state)
  {
  }

  /** Every run from a session keeping the lock invariant ends in one that keeps it. */
  lemma {:induction false} RunKeepsLockInv(cfg: Config, s: Session, inputs: seq<Input>)
    requires WellFormed(cfg) && Runnable(inputs) && Inv(s) && LockInv(cfg, s)
    ensures LockInv(cfg, Run(cfg, s, inputs).state)
    decreases |inputs|
  {
    if inputs != [] {
      ApplyKeepsLockInv(cfg, s, inputs[0]);
      RunCons(cfg, s, inputs);
      RunKeepsLockInv(cfg, Apply(cfg, s, inputs[0]).state, inputs[1..]);
    }
  }

  /** A gesture the lock yielded ends with `touchEnd` alone: nothing was sampled, so no axis
      has momentum. */
  lemma YieldedGestureHasNoMomentum(cfg: Config, s: Session, up: Snapshot, now: int)
    requires WellFormed(cfg) && LockInv(cfg, s)
    requires !s.isScrollingDisabled && s.ignoreMovements && |up.touches| == 0
    ensures End(cfg, s, up, now).out == [TouchEnd]
  {
    var m := Releases(cfg.axes, s.tracks, cfg.minPxForMomentum, cfg.maxPointsForMomentum);
    forall a: Axis | a in cfg.axes
      ensures m.Get(a).pxPerFrame == 0.0
    {
      MeanPositive(s.tracks.Get(a).speed, cfg.maxPointsForMomentum);
    }
    assert m.x.pxPerFrame == 0.0 && m.y.pxPerFrame == 0.0;
  }

  /** Whatever a freshly constructed tracker was fed, once the lock has yielded the release
      emits no momentum. */
  lemma YieldedRunHasNoMomentum(cfg: Config, inputs: seq<Input>, up: Snapshot, now: int)
    requires WellFormed(cfg) && Runnable(inputs)
    requires var r := Run(cfg, Initial, inputs).state; !r.isScrollingDisabled && r.ignoreMovements
    requires |up.touches| == 0
    ensures End(cfg, Run(cfg, Initial, inputs).state, up, now).out == [TouchEnd]
  {
    InitialInv();
    InitialLockInv(cfg);
    RunPreservesInv(cfg, Initial, inputs);
    RunKeepsLockInv(cfg, Initial, inputs);
    YieldedGestureHasNoMomentum(cfg, Run(cfg, Initial, inputs).state, up, now);
  }

  /** The suppression decisions are sticky: until a start with fewer than two contacts,
      `ignoreMovements` and `stopEvents` stay set once set, and the move counter never
      decreases. */
  lemma {:induction false} RunKeepsSuppression(cfg: Config, s: Session, inputs: seq<Input>)
    requires WellFormed(cfg)
    requires Runnable(inputs)
    requires forall k :: 0 <= k < |inputs| ==> !Rearms(inputs[k])
    ensures s.ignoreMovements ==> Run(cfg, s, inputs).state.ignoreMovements
    ensures s.stopEvents ==> Run(cfg, s, inputs).state.stopEvents
    ensures s.moveCount <= Run(cfg, s, inputs).state.moveCount
    decreases |inputs|
  {
    if inputs != [] {
      RunKeepsSuppression(cfg, Apply(cfg, s, inputs[0]).state, inputs[1..]);
    }
  }

  /** While scrolling is disabled every touch event is ignored: until it is enabled again the
      session does not change and nothing is emitted. */
  lemma {:induction false} DisabledRunIsSilent(cfg: Config, s: Session, inputs: seq<Input>)
    requires WellFormed(cfg)
    requires Runnable(inputs)
    requires forall k :: 0 <= k < |inputs| ==> inputs[k] != DisableIn(false)
    requires Inv(s) && s.isScrollingDisabled
    ensures Run(cfg, s, inputs) == Trace(s, [])
    decreases |inputs|
  {
    if inputs != [] {
      DisabledRunIsSilent(cfg, s, inputs[1..]);
    }
  }

  /** After a restart the reversal reset cannot fire on the next two moves, whatever their
      positions: the path simply grows. */
  lemma NoReversalAfterRestart(v0: int, v1: int, v2: int, ms1: int, ms2: int)
    ensures var t1 := Advance(Fresh(v0), v1, ms1).track;
            && t1.path == [v0, v1]
            && Advance(t1, v2, ms2).track.path == [v0, v1, v2]
  {
  }

  /** A start directly followed by the last finger lifting emits `touchStart` and `touchEnd`
      and nothing else: no push and no momentum. */
  lemma IdleGesture(cfg: Config, s: Session, down: Snapshot, t0: int, up: Snapshot, t1: int)
    requires WellFormed(cfg)
    requires |down.touches| > 0 && |up.touches| == 0
    requires !s.isScrollingDisabled
    ensures Runnable([StartIn(down, t0), EndIn(up, t1)])
    ensures Run(cfg, s, [StartIn(down, t0), EndIn(up, t1)]).out == [TouchStart, TouchEnd]
  {
    var inputs := [StartIn(down, t0), EndIn(up, t1)];
    var started := Start(cfg, s, down, t0);
    var ended := End(cfg, started.state, up, t1);
    assert Releases(cfg.axes, started.state.tracks, cfg.minPxForMomentum, cfg.maxPointsForMomentum).x.pxPerFrame == 0.0;
    assert Releases(cfg.axes, started.state.tracks, cfg.minPxForMomentum, cfg.maxPointsForMomentum).y.pxPerFrame == 0.0;
    assert ended.out == [TouchEnd];
    assert inputs[1..] == [EndIn(up, t1)];
    assert inputs[1..][1..] == [];
    assert Run(cfg, started.state, inputs[1..]) == Trace(ended.state, [TouchEnd]);
  }

  /** Finger handoff: after a finger lifts while another stays down, the next move adopts
      the finger that moved, restarts every configured axis at its position, and neither
      reverses nor pushes. */
  lemma Handoff(cfg: Config, s: Session, up: Snapshot, t0: int, ev: Snapshot, now: int)
    requires WellFormed(cfg) && Inv(s)
    requires !s.isScrollingDisabled && !s.ignoreMovements
    requires !cfg.lock || s.moveCount == 2
    requires |up.touches| > 0 && |ev.touches| > 0
    ensures var lifted := End(cfg, s, up, t0);
            var moved := Move(cfg, lifted.state, ev, now);
            var p := ev.touches[ActiveFingerIndex(ev.touches, ev.changedId)].Position();
            && lifted.out == [] && lifted.state.activeFinger == -1
            && moved.out == []
            && moved.state.startPoint == Some(p)
            && moved.state.activeFinger == ActiveFingerIndex(ev.touches, ev.changedId)
            && forall a: Axis :: a in cfg.axes ==>
                 moved.state.tracks.Get(a) == AxisTrack([p.Get(a), p.Get(a)], [Sample(0, 0)], 0, 0)
  {
  }

  // STRAIGHT DRAGS

  /** `a` lies strictly beyond `b` in direction `d`. */
  predicate Beyond(d: int, b: int, a: int) {
    if d > 0 then a > b else a < b
  }

  /** Positions moving strictly in direction `d`, starting beyond `x0`. */
  predicate Straight(d: int, x0: int, xs: seq<int>) {
    && (|xs| > 0 ==> Beyond(d, x0, xs[0]))
    && forall k :: 0 < k < |xs| ==> Beyond(d, xs[k - 1], xs[k])
  }

  /** One finger `id` at height `y`, touching at `x`. */
  function OneFinger(id: int, x: int, y: int): Snapshot {
    Snapshot([Touch(id, x, y)], id, 1)
  }

  /** One move of finger `id` at height `y` to each of `xs` in turn, the k-th at time
      `ts[k]`. */
  function DragMoves(id: int, y: int, xs: seq<int>, ts: seq<int>): (r: seq<Input>)
    requires |ts| == |xs|
    ensures |r| == |xs|
    ensures Runnable(r)
    decreases |xs|
  {
    if xs == [] then []
    else
      var rest := DragMoves(id, y, xs[1..], ts[1..]);
      assert ([MoveIn(OneFinger(id, xs[0], y), ts[0])] + rest)[1..] == rest;
      [MoveIn(OneFinger(id, xs[0], y), ts[0])] + rest
  }

  /** The x track during a straight drag: its path is everything since the start, every
      sample moved, and the direction is `d` once the first move is in. */
  predicate Dragging(d: int, t: AxisTrack) {
    && |t.path| == |t.speed| + 1
    && (forall k :: 0 <= k < |t.speed| ==> t.speed[k].px > 0)
    && (if |t.speed| == 0 then t.direction == 0 && t.prevDirection == 0
        else t.direction == d && (t.prevDirection == 0 || t.prevDirection == d))
  }

  /** Dragging state of a session tracking one finger on the x axis without a lock. */
  predicate DragSession(cfg: Config, s: Session, d: int) {
    && cfg.axes == [X] && !cfg.lock
    && !s.isScrollingDisabled && !s.ignoreMovements && s.activeFinger == 0
    && Dragging(d, s.tracks.x)
  }

  lemma {:induction false} DragStep(cfg: Config, s: Session, d: int, id: int, x: int, y: int, t: int)
    requires WellFormed(cfg) && DragSession(cfg, s, d)
    requires d == 1 || d == -1
    requires Beyond(d, Last(s.tracks.x.path), x)
    ensures var r := Move(cfg, s, OneFinger(id, x, y), t).state;
            && DragSession(cfg, r, d)
            && r.tracks.x.path == s.tracks.x.path + [x]
            && |r.tracks.x.speed| > 0
            && r.moveTime == t
  {
    var ev := OneFinger(id, x, y);
    assert ev.touches[0].id == ev.changedId;
    assert ActiveFingerIndex(ev.touches, ev.changedId) == 0;
    var s1 := CheckForNewStart(cfg, s, ev, t, false);
    assert s1 == s;
    var a := Advance(s.tracks.x, x, t - s.moveTime);
    assert Delta(s.tracks.x, x) != 0;
    assert a.track.direction == d;
    assert !Reverses(s.tracks.x, a.track.direction);
    var r := Move(cfg, s, ev, t).state;
    assert r.tracks.x == a.track;
    assert r.tracks.x.speed == s.tracks.x.speed + [Sample(Abs(Delta(s.tracks.x, x)), t - s.moveTime)];
  }

  lemma StraightTail(d: int, x0: int, xs: seq<int>)
    requires |xs| > 0 && Straight(d, x0, xs)
    ensures Straight(d, xs[0], xs[1..])
  {
    forall k | 0 < k < |xs[1..]|
      ensures Beyond(d, xs[1..][k - 1], xs[1..][k])
    {
      assert xs[1..][k] == xs[k + 1];
    }
  }

  lemma RunHead(cfg: Config, s: Session, inputs: seq<Input>)
    requires WellFormed(cfg)
    requires Runnable(inputs)
    requires inputs != []
    ensures Run(cfg, s, inputs).state == Run(cfg, Apply(cfg, s, inputs[0]).state, inputs[1..]).state
  {
  }

  lemma AppendHead(p: seq<int>, xs: seq<int>)
    requires |xs| > 0
    ensures p + xs == (p + [xs[0]]) + xs[1..]
  {
    assert xs == [xs[0]] + xs[1..];
  }

  lemma {:induction false} DragRun(cfg: Config, s: Session, d: int, id: int, y: int, xs: seq<int>, ts: seq<int>)
    requires WellFormed(cfg) && DragSession(cfg, s, d)
    requires d == 1 || d == -1
    requires Straight(d, Last(s.tracks.x.path), xs) && |ts| == |xs|
    ensures var r := Run(cfg, s, DragMoves(id, y, xs, ts)).state;
            && DragSession(cfg, r, d)
            && r.tracks.x.path == s.tracks.x.path + xs
            && (|xs| > 0 ==> |r.tracks.x.speed| > 0 && r.moveTime == Last(ts))
    decreases |xs|
  {
    var inputs := DragMoves(id, y, xs, ts);
    if xs == [] {
      assert inputs == [];
    } else {
      var ev := OneFinger(id, xs[0], y);
      DragStep(cfg, s, d, id, xs[0], y, ts[0]);
      var s1 := Move(cfg, s, ev, ts[0]).state;
      assert Apply(cfg, s, inputs[0]).state == s1;
      assert inputs[1..] == DragMoves(id, y, xs[1..], ts[1..]);
      assert Last(s1.tracks.x.path) == xs[0];
      StraightTail(d, Last(s.tracks.x.path), xs);
      DragRun(cfg, s1, d, id, y, xs[1..], ts[1..]);
      assert |xs| > 1 ==> Last(ts[1..]) == Last(ts);
      RunHead(cfg, s, inputs);
      var r1 := Run(cfg, s1, inputs[1..]).state;
      assert Run(cfg, s, inputs).state == r1;
      assert r1.tracks.x.path == s1.tracks.x.path + xs[1..];
      AppendHead(s.tracks.x.path, xs);
    }
  }

  /** A start with one finger at `x0`, then a straight drag: the session is still dragging,
      with the whole gesture on its x path. */
  lemma StartThenDrag(cfg: Config, s: Session, d: int, id: int, x0: int, y: int, xs: seq<int>, t0: int, ts: seq<int>)
    requires WellFormed(cfg) && cfg.axes == [X] && !cfg.lock
    requires !s.isScrollingDisabled
    requires d == 1 || d == -1
    requires |xs| > 0 && Straight(d, x0, xs) && |ts| == |xs|
    ensures var inputs := [StartIn(OneFinger(id, x0, y), t0)] + DragMoves(id, y, xs, ts);
            && Runnable(inputs)
            && var r := Run(cfg, s, inputs);
            && |r.out| > 0
            && DragSession(cfg, r.state, d)
            && r.state.tracks.x.path == [x0] + xs
            && |r.state.tracks.x.speed| > 0
            && r.state.moveTime == Last(ts)
  {
    var start := [StartIn(OneFinger(id, x0, y), t0)];
    var moves := DragMoves(id, y, xs, ts);
    var s1 := Start(cfg, s, OneFinger(id, x0, y), t0);
    assert ActiveFingerIndex(OneFinger(id, x0, y).touches, id) == 0;
    assert s1.state.tracks.x == AxisTrack([x0], [], 0, 0);
    assert Run(cfg, s, start) == Trace(s1.state, [TouchStart]);
    DragRun(cfg, s1.state, d, id, y, xs, ts);
    RunAppend(cfg, s, start, moves);
  }

  /** The last finger lifting at time `now` after a straight drag. */
  lemma ReleaseDrag(cfg: Config, s: Session, d: int, x0: int, xs: seq<int>, up: Snapshot, now: int)
    requires WellFormed(cfg) && DragSession(cfg, s, d)
    requires cfg.momentum && cfg.maxPointsForMomentum >= 1
    requires |xs| > 0 && s.tracks.x.path == [x0] + xs && |s.tracks.x.speed| > 0
    requires |up.touches| == 0
    ensures var out := End(cfg, s, up, now).out;
            && |out| > 0
            && (Last(out).Momentum? <==>
                  now - s.moveTime <= cfg.maxTimeDiffForMomentum && Abs(Last(xs) - x0) >= cfg.minPxForMomentum)
            && (Last(out).Momentum? ==> Last(out).release.x.direction == d && Last(out).release.x.pxPerFrame > 0.0)
  {
    var tx := s.tracks.x;
    assert Last(tx.path) == Last(xs);
    var m := Releases(cfg.axes, s.tracks, cfg.minPxForMomentum, cfg.maxPointsForMomentum);
    MeanPositive(tx.speed, cfg.maxPointsForMomentum);
    assert tx.speed[|tx.speed| - 1].px > 0;
    assert m.y == NoRelease;
    assert Qualifies(tx.path, cfg.minPxForMomentum) <==> Abs(Last(xs) - x0) >= cfg.minPxForMomentum;
    assert AnyMomentum(m) <==> Abs(Last(xs) - x0) >= cfg.minPxForMomentum;
  }

  /** A single-finger straight drag along x ends with a momentum event exactly when the finger
      lifted within `maxTimeDiffForMomentum` of the last move and the drag covered at least
      `minPxForMomentum`; the event then points in the drag's direction with a positive
      speed. */
  lemma StraightDragMomentum(cfg: Config, s: Session, d: int, id: int, x0: int, y: int, xs: seq<int>, t0: int, ts: seq<int>, now: int)
    requires WellFormed(cfg) && cfg.axes == [X] && !cfg.lock
    requires cfg.momentum && cfg.maxPointsForMomentum >= 1
    requires !s.isScrollingDisabled
    requires d == 1 || d == -1
    requires |xs| > 0 && Straight(d, x0, xs) && |ts| == |xs|
    ensures var inputs := [StartIn(OneFinger(id, x0, y), t0)] + DragMoves(id, y, xs, ts) + [EndIn(Snapshot([], id, 0), now)];
            && Runnable(inputs)
            && var out := Run(cfg, s, inputs).out;
            && |out| > 0
            && (Last(out).Momentum? <==>
                  now - Last(ts) <= cfg.maxTimeDiffForMomentum && Abs(Last(xs) - x0) >= cfg.minPxForMomentum)
            && (Last(out).Momentum? ==> Last(out).release.x.direction == d && Last(out).release.x.pxPerFrame > 0.0)
  {
    var drag := [StartIn(OneFinger(id, x0, y), t0)] + DragMoves(id, y, xs, ts);
    var up := Snapshot([], id, 0);
    StartThenDrag(cfg, s, d, id, x0, y, xs, t0, ts);
    var dragged := Run(cfg, s, drag);
    ReleaseDrag(cfg, dragged.state, d, x0, xs, up, now);
    RunThenOne(cfg, s, drag, EndIn(up, now));
    var e := End(cfg, dragged.state, up, now);
    assert Last(dragged.out + e.out) == Last(e.out);
  }
}

/** Worked gestures of the ShbTouch tracker. */
module ShbTouchScenarios {
  import opened Touches
  import opened Settings
  import opened Tracking
  import opened ShbTouch
  import opened ShbTouchProps

  /** Following x only, otherwise the defaults. */
  const XOnly: Config := Defaults.(axes := [X])

  /** A move of the one finger already tracked, without a lock, is just the path engine on
      the x axis. */
  lemma OneFingerMove(s: Session, id: int, x: int, y: int, t: int)
    requires !s.isScrollingDisabled && !s.ignoreMovements && s.activeFinger == 0
    ensures Move(XOnly, s, OneFinger(id, x, y), t).state ==
              s.(tracks := s.tracks.(x := Advance(s.tracks.x, x, t - s.moveTime).track), moveTime := t)
  {
    assert ActiveFingerIndex([Touch(id, x, y)], id) == 0;
  }

  /** The x track of a finger that starts at 0, goes to 10 and 20 and back through 15, 10
      and 5 to 0, one move every 10 ms: the turn at 15 restarts the path. */
  lemma ReversalRestartsPath()
    ensures var t1 := Advance(Fresh(0), 10, 10).track;
            var t2 := Advance(t1, 20, 10).track;
            var t3 := Advance(t2, 15, 10).track;
            var t4 := Advance(t3, 10, 10).track;
            var t5 := Advance(t4, 5, 10).track;
            var t6 := Advance(t5, 0, 10).track;
            && t2.path == [0, 10, 20]
            && t3 == AxisTrack([15], [], -1, 1)
            && t6 == AxisTrack([15, 10, 5, 0], [Sample(5, 10), Sample(5, 10), Sample(5, 10)], -1, -1)
  {
    var t1 := Advance(Fresh(0), 10, 10).track;
    assert t1 == AxisTrack([0, 10], [Sample(10, 10)], 1, 0);
    var t2 := Advance(t1, 20, 10).track;
    assert t2 == AxisTrack([0, 10, 20], [Sample(10, 10), Sample(10, 10)], 1, 1);
    var t3 := Advance(t2, 15, 10).track;
    assert t3 == AxisTrack([15], [], -1, 1);
    var t4 := Advance(t3, 10, 10).track;
    assert t4 == AxisTrack([15, 10], [Sample(5, 10)], -1, -1);
    var t5 := Advance(t4, 5, 10).track;
    assert t5 == AxisTrack([15, 10, 5], [Sample(5, 10), Sample(5, 10)], -1, -1);
  }

  /** Releasing that finger 10 ms after its last move: the momentum averages only the three
      5 px samples taken after the turn, heading backwards. */
  lemma ReversalMomentum(s: Session)
    requires !s.isScrollingDisabled && s.moveTime == 60
    requires s.tracks.x == AxisTrack([15, 10, 5, 0], [Sample(5, 10), Sample(5, 10), Sample(5, 10)], -1, -1)
    ensures End(XOnly, s, Snapshot([], 1, 0), 70).out == [TouchEnd, Momentum(PerAxis(Release(-1, 5.0), NoRelease))]
  {
    var speed := s.tracks.x.speed;
    assert speed[0..] == speed;
    assert SumPx(speed) == 15;
    assert TrailingMean(speed, 3) == 5.0;
  }

  /** With a lock on x, a gesture whose second move went 20 px along x and 5 px across it is
      claimed: its events are suppressed from then on and it keeps pushing. */
  lemma LockClaims()
    ensures var cfg := Normalize(XOnly.(lock := true));
            var s0 := Start(cfg, Initial, OneFinger(1, 0, 0), 0).state;
            var m1 := Move(cfg, s0, OneFinger(1, 10, 2), 10);
            var m2 := Move(cfg, m1.state, OneFinger(1, 20, 5), 20);
            && m1.out == [] && m1.preventDefault && m1.stopPropagation
            && m2.state.stopEvents && !m2.state.ignoreMovements
            && m2.preventDefault && m2.stopPropagation
            && m2.out == [PushBy(PerAxis(Push(1, 20), Push(0, 0)))]
  {
    var cfg := Normalize(XOnly.(lock := true));
    assert WellFormed(cfg);
    assert ActiveFingerIndex([Touch(1, 0, 0)], 1) == 0;
    assert ActiveFingerIndex([Touch(1, 10, 2)], 1) == 0;
    assert ActiveFingerIndex([Touch(1, 20, 5)], 1) == 0;
  }

  /** The mirror gesture, 5 px along x and 20 px across, is yielded: the tracker ignores it
      and every later move of the gesture does nothing. */
  lemma LockYields(later: Snapshot, t: int)
    requires |later.touches| > 0
    ensures var cfg := Normalize(XOnly.(lock := true));
            var s0 := Start(cfg, Initial, OneFinger(1, 0, 0), 0).state;
            var m1 := Move(cfg, s0, OneFinger(1, 2, 10), 10);
            var m2 := Move(cfg, m1.state, OneFinger(1, 5, 20), 20);
            && m2.state.ignoreMovements && m2.out == []
            && !m2.preventDefault && !m2.stopPropagation
            && Move(cfg, m2.state, later, t) == Step(m2.state, [], false, false)
  {
    var cfg := Normalize(XOnly.(lock := true));
    assert WellFormed(cfg);
    assert ActiveFingerIndex([Touch(1, 0, 0)], 1) == 0;
    assert ActiveFingerIndex([Touch(1, 2, 10)], 1) == 0;
    assert ActiveFingerIndex([Touch(1, 5, 20)], 1) == 0;
  }
}
