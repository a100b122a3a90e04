/** Properties of the Kotti tracker that span several handler calls. */
module KottiProps {
  import opened Touches
  import opened Settings
  import opened Tracking
  import opened Kotti

  /** A fresh tracker satisfies the invariant, and its first start makes every configured
      path readable. */
  lemma InitialStart(cfg: Config, ev: Snapshot, now: int)
    requires |ev.touches| > 0
    ensures Inv(Initial)
    ensures PathsReady(cfg, Start(cfg, Initial, ev, now).state)
    ensures Start(cfg, Initial, ev, now).out == [TouchStart]
  {
  }

  /** Inputs that never switch the tracker off stay admissible once every configured path
      has a position, and keep it so. */
  lemma {:induction false} ReadyRunsAreRunnable(cfg: Config, s: Session, inputs: seq<Input>)
    requires WellFormed(cfg) && Inv(s) && PathsReady(cfg, s)
    requires forall k :: 0 <= k < |inputs| ==> Ready(inputs[k]) && inputs[k] != EnableIn(false)
    ensures Runnable(cfg, s, inputs)
    ensures PathsReady(cfg, Run(cfg, s, inputs).state)
    decreases |inputs|
  {
    if inputs != [] {
      assert Ready(inputs[0]);
      var next := Apply(cfg, s, inputs[0]).state;
      ReadyRunsAreRunnable(cfg, next, inputs[1..]);
    }
  }

  /** A gesture fed to a freshly constructed tracker, starting with a touch start and never
      switching the tracker off, can be run to the end. */
  lemma RunFromConstruction(cfg: Config, down: Snapshot, now: int, rest: seq<Input>)
    requires WellFormed(cfg) && |down.touches| > 0 && WellFormedSnapshot(down)
    requires forall k :: 0 <= k < |rest| ==> Ready(rest[k]) && rest[k] != EnableIn(false)
    ensures Runnable(cfg, Initial, [StartIn(down, now)] + rest)
  {
    var inputs := [StartIn(down, now)] + rest;
    var started := Apply(cfg, Initial, inputs[0]).state;
    assert inputs[1..] == rest;
    ReadyRunsAreRunnable(cfg, started, rest);
  }

  /** Switching an idle tracker off and on again changes nothing but leaves it able to run
      whatever it could run before. */
  lemma IdleReenable(cfg: Config, s: Session)
    requires WellFormed(cfg) && Inv(s) && !s.isTouchActive
    ensures Runnable(cfg, s, [EnableIn(false), EnableIn(true)])
    ensures Run(cfg, s, [EnableIn(false), EnableIn(true)]) == Trace(s.(isEnabled := true), [])
  {
    var off := SetEnabled(cfg, s, false).state;
    assert Runnable(cfg, SetEnabled(cfg, off, true).state, []);
    assert Runnable(cfg, off, [EnableIn(true)]);
  }

  /** A run that can go on with `b` after `a` is one run of `a + b`, and conversely. */
  lemma {:induction false} RunnableAppend(cfg: Config, s: Session, a: seq<Input>, b: seq<Input>)
    requires Runnable(cfg, s, a)
    ensures Runnable(cfg, s, a + b) <==> Runnable(cfg, Run(cfg, s, a).state, b)
    decreases |a|
  {
    if a == [] {
      assert a + b == b;
    } else {
      assert (a + b)[0] == a[0];
      assert (a + b)[1..] == a[1..] + b;
      RunnableAppend(cfg, Apply(cfg, s, a[0]).state, a[1..], b);
    }
  }

  /** `Apply` made total: inputs it is not defined for leave the session alone. */
  function Total(cfg: Config, s: Session, i: Input): Step<Session> {
    if WellFormed(cfg) && Inv(s) && Admissible(cfg, s, i) then Apply(cfg, s, i)
    else Step(s, [], false, false)
  }

  lemma {:induction false} RunIsChain(cfg: Config, s: Session, inputs: seq<Input>)
    requires Runnable(cfg, s, inputs)
    ensures Run(cfg, s, inputs) == Chain((st, i) => Total(cfg, st, i), s, inputs)
    decreases |inputs|
  {
    if inputs != [] {
      RunIsChain(cfg, Apply(cfg, s, inputs[0]).state, inputs[1..]);
    }
  }

  /** Feeding two runs one after the other is one run of the concatenated inputs. */
  lemma RunAppend(cfg: Config, s: Session, a: seq<Input>, b: seq<Input>)
    requires Runnable(cfg, s, a) && Runnable(cfg, Run(cfg, s, a).state, b)
    ensures Runnable(cfg, s, a + b)
    ensures Run(cfg, s, a + b) ==
              var first := Run(cfg, s, a);
              var second := Run(cfg, first.state, b);
              Trace(second.state, first.out + second.out)
  {
    RunnableAppend(cfg, s, a, b);
    var f := (st, i) => Total(cfg, st, i);
    RunIsChain(cfg, s, a);
    RunIsChain(cfg, s, a + b);
    RunIsChain(cfg, Run(cfg, s, a).state, b);
    ChainAppend(f, s, a, b);
  }

  /** Until the next start, a yielded lock stays yielded and the move counter never
      decreases. */
  lemma {:induction false} RunKeepsSuppression(cfg: Config, s: Session, inputs: seq<Input>)
    requires Runnable(cfg, s, inputs)
    requires forall k :: 0 <= k < |inputs| ==> !inputs[k].StartIn?
    ensures s.ignoreMovements ==> Run(cfg, s, inputs).state.ignoreMovements
    ensures s.moveCount <= Run(cfg, s, inputs).state.moveCount
    decreases |inputs|
  {
    if inputs != [] {
      RunKeepsSuppression(cfg, Apply(cfg, s, inputs[0]).state, inputs[1..]);
    }
  }

  /** Until it is switched on again, a disabled tracker ignores every touch event and every
      further disabling: the session does not change and nothing is emitted. */
  lemma {:induction false} DisabledRunIsSilent(cfg: Config, s: Session, inputs: seq<Input>)
    requires Runnable(cfg, s, inputs) && !s.isEnabled
    requires forall k :: 0 <= k < |inputs| ==> inputs[k] != EnableIn(true)
    ensures Run(cfg, s, inputs) == Trace(s, [])
    decreases |inputs|
  {
    if inputs != [] {
      DisabledRunIsSilent(cfg, s, inputs[1..]);
    }
  }

  /** Once the lock has yielded, moves leave the session untouched and emit nothing. */
  lemma {:induction false} YieldedMovesAreQuiet(cfg: Config, s: Session, inputs: seq<Input>)
    requires Runnable(cfg, s, inputs) && s.ignoreMovements
    requires forall k :: 0 <= k < |inputs| ==> inputs[k].MoveIn?
    ensures Run(cfg, s, inputs) == Trace(s, [])
    decreases |inputs|
  {
    if inputs != [] {
      YieldedMovesAreQuiet(cfg, s, inputs[1..]);
    }
  }

  /** A gesture the lock yielded ends with `touchEnd` alone: no momentum. */
  lemma YieldedGestureHasNoMomentum(cfg: Config, s: Session, up: Snapshot, now: int)
    requires WellFormedSnapshot(up) && up.targetCount == 0
    requires s.isEnabled && s.ignoreMovements
    ensures End(cfg, s, up, now).out == [TouchEnd]
  {
  }

  /** The lock decides on the second move after a start, measured from the start point:
      the first move pushes nothing, the second pushes whatever it decides, and the tracker
      yields exactly when that move left the locked axis. */
  lemma LockDecidesOnSecondMove(cfg: Config, s: Session, e0: Snapshot, t0: int, e1: Snapshot, t1: int, e2: Snapshot, t2: int)
    requires WellFormed(cfg) && cfg.lock && s.isEnabled
    requires |e0.touches| > 0 && |e1.touches| > 0 && |e2.touches| > 0
    ensures var started := Start(cfg, s, e0, t0);
            var first := Move(cfg, started.state, e1, t1);
            var second := Move(cfg, first.state, e2, t2);
            && first.out == []
            && |second.out| == 1 && second.out[0].PushBy?
            && first.stopPropagation && second.stopPropagation
            && (second.state.ignoreMovements <==> LeavesAxis(cfg.axes[0], FirstPoint(e0), FirstPoint(e2)))
  {
  }

  /** Unlike the other tracker, Kotti reports momentum even when there is none: a start
      directly followed by the last finger lifting, quickly enough, emits a momentum event
      that moves no axis. */
  lemma IdleGestureReportsMomentum(cfg: Config, s: Session, down: Snapshot, t0: int, up: Snapshot, t1: int)
    requires WellFormed(cfg) && s.isEnabled && cfg.momentum
    requires |down.touches| > 0 && WellFormedSnapshot(up) && up.targetCount == 0
    requires t1 - t0 <= cfg.maxTimeDiffForMomentum
    ensures var started := Start(cfg, s, down, t0);
            var ended := End(cfg, started.state, up, t1);
            && started.out + ended.out == [TouchStart, TouchEnd, ended.out[1]]
            && ended.out[1].Momentum?
            && !AnyMomentum(ended.out[1].release)
  {
    var started := Start(cfg, s, down, t0);
    var m := Releases(cfg.axes, started.state.tracks, cfg.minPxForMomentum, cfg.maxPointsForMomentum);
    assert m.x.pxPerFrame == 0.0;
    assert m.y.pxPerFrame == 0.0;
  }

  /** After a finger lifts while another stays on the target, each configured path is reseeded
      at the remaining first contact with its directions kept. The next move therefore
      restarts the path at its own position exactly when it reverses the direction the
      gesture had, and otherwise extends the seeded one-point path. */
  lemma LiftThenMove(cfg: Config, s: Session, up: Snapshot, t0: int, ev: Snapshot, now: int)
    requires WellFormed(cfg) && Inv(s) && s.isEnabled && !s.ignoreMovements
    requires WellFormedSnapshot(up) && up.targetCount > 0 && |ev.touches| > 0
    ensures var lifted := End(cfg, s, up, t0);
            var moved := Move(cfg, lifted.state, ev, now);
            && lifted.out == []
            && forall a: Axis :: a in cfg.axes ==>
                 var before := s.tracks.Get(a);
                 var d := NextDirection(before.direction, FirstPoint(ev).Get(a) - FirstPoint(up).Get(a));
                 var t := moved.state.tracks.Get(a);
                 && (Reverses(before, d) ==> t.path == [FirstPoint(ev).Get(a)] && t.speed == [])
                 && (!Reverses(before, d) ==>
                       t.path == [FirstPoint(up).Get(a), FirstPoint(ev).Get(a)]
                       && |t.speed| == 1 && t.speed[0].px == Abs(FirstPoint(ev).Get(a) - FirstPoint(up).Get(a)))
  {
  }

  /** Unlike the other tracker, whose handoff restarts every path from scratch, Kotti keeps
      the directions across a lift: a finger that had been moving right and hands off to a
      contact whose first move goes left restarts the x path at that move. */
  lemma HandoffAgainstDirectionRestarts(cfg: Config, s: Session, up: Snapshot, t0: int, ev: Snapshot, now: int)
    requires WellFormed(cfg) && cfg.axes == [X] && Inv(s) && s.isEnabled && !s.ignoreMovements
    requires s.tracks.x.direction == 1 && s.tracks.x.prevDirection != 0
    requires WellFormedSnapshot(up) && up.targetCount > 0 && |ev.touches| > 0
    requires FirstPoint(ev).x < FirstPoint(up).x
    ensures var lifted := End(cfg, s, up, t0);
            Move(cfg, lifted.state, ev, now).state.tracks.x.path == [FirstPoint(ev).x]
  {
    LiftThenMove(cfg, s, up, t0, ev, now);
    assert X in cfg.axes;
  }
}
