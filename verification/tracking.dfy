/** The per-axis engine both trackers share: the path/speed sample buffers, the direction
    rule with its zero-delta inversion and guarded reversal reset, the momentum estimator,
    and the output events a handler emits. */
module Tracking {
  import opened Touches

  /** One speed sample: the absolute pixel distance of a move and the milliseconds since the
      previous one. */
  datatype Sample = Sample(px: nat, ms: int)

  /** Everything a tracker keeps about one axis. */
  datatype AxisTrack = AxisTrack(path: seq<int>, speed: seq<Sample>, direction: int, prevDirection: int)

  const EmptyTrack: AxisTrack := AxisTrack([], [], 0, 0)

  /** The buffers stay aligned: at most one more position than speed samples. A path seeded
      with one point and then advanced has exactly one more; advancing an empty path gives
      as many positions as samples. */
  predicate Aligned(t: AxisTrack) {
    |t.speed| <= |t.path| <= |t.speed| + 1
  }

  /** The invariant every reachable track keeps. */
  predicate Settled(t: AxisTrack) {
    IsDirection(t.direction) && IsDirection(t.prevDirection) && Aligned(t)
  }

  /** A track that has just been (re)started at position `v`. */
  function Fresh(v: int): (t: AxisTrack)
    ensures Settled(t)
  {
    AxisTrack([v], [], 0, 0)
  }

  /** The move's distance from the last recorded position; 0 when the path is empty. */
  function Delta(t: AxisTrack, v: int): int {
    if |t.path| > 0 then v - Last(t.path) else 0
  }

  /** The direction rule: the sign of a non-zero delta; a zero delta inverts the current
      direction (the finger has paused, most likely while turning around). */
  function NextDirection(current: int, delta: int): (d: int)
    ensures delta != 0 ==> IsDirection(d) && d != 0 && (d > 0 <==> delta > 0)
    ensures delta == 0 ==> d == -current
    ensures IsDirection(current) ==> IsDirection(d)
  {
    if delta == 0 then -current else if delta < 0 then -1 else 1
  }

  /** A reversal restarts the buffers: the new direction differs from the committed one, and
      the one before that was known (so the first moves after a reset never count). */
  predicate Reverses(t: AxisTrack, newDirection: int) {
    newDirection != t.direction && t.prevDirection != 0
  }

  datatype Push = Push(direction: int, px: nat)

  datatype Advanced = Advanced(track: AxisTrack, push: Push)

  /** One axis of a processed move to position `v`, `ms` milliseconds after the last one. */
  function Advance(t: AxisTrack, v: int, ms: int): (r: Advanced)
    ensures r.push == Push(r.track.direction, Abs(Delta(t, v)))
    ensures r.track.direction == NextDirection(t.direction, Delta(t, v))
    ensures r.track.prevDirection == t.direction
    ensures Reverses(t, r.track.direction) ==> r.track.path == [v] && r.track.speed == []
    ensures !Reverses(t, r.track.direction) ==>
              r.track.path == t.path + [v] && r.track.speed == t.speed + [Sample(Abs(Delta(t, v)), ms)]
    ensures t.prevDirection == 0 ==> r.track.path == t.path + [v]
    ensures |r.track.path| > 0 && Last(r.track.path) == v
    ensures Settled(t) ==> Settled(r.track)
  {
    var delta := Delta(t, v);
    var d := NextDirection(t.direction, delta);
    var kept := if Reverses(t, d) then AxisTrack([v], [], 0, 0)
                else AxisTrack(t.path + [v], t.speed + [Sample(Abs(delta), ms)], 0, 0);
    Advanced(kept.(direction := d, prevDirection := t.direction), Push(d, Abs(delta)))
  }

  /** Applies `f` to the track of every configured axis and leaves the others alone. */
  function Update(axes: seq<Axis>, tracks: PerAxis<AxisTrack>, f: (Axis, AxisTrack) -> AxisTrack): (r: PerAxis<AxisTrack>)
    ensures forall a: Axis :: r.Get(a) == if a in axes then f(a, tracks.Get(a)) else tracks.Get(a)
  {
    PerAxis(if X in axes then f(X, tracks.x) else tracks.x,
            if Y in axes then f(Y, tracks.y) else tracks.y)
  }

  /** Every configured axis restarts at `p`: one position, no samples, directions unknown. */
  function Restarted(axes: seq<Axis>, tracks: PerAxis<AxisTrack>, p: Point): (r: PerAxis<AxisTrack>)
    ensures forall a: Axis :: a in axes ==> r.Get(a) == AxisTrack([p.Get(a)], [], 0, 0)
    ensures forall a: Axis :: a !in axes ==> r.Get(a) == tracks.Get(a)
  {
    Update(axes, tracks, (a: Axis, t: AxisTrack) => Fresh(p.Get(a)))
  }

  /** Every configured axis forgets its path and speed; directions are kept. */
  function Cleared(axes: seq<Axis>, tracks: PerAxis<AxisTrack>): (r: PerAxis<AxisTrack>)
    ensures forall a: Axis :: a in axes ==> r.Get(a) == tracks.Get(a).(path := [], speed := [])
    ensures forall a: Axis :: a !in axes ==> r.Get(a) == tracks.Get(a)
  {
    Update(axes, tracks, (a: Axis, t: AxisTrack) => t.(path := [], speed := []))
  }

  /** Every configured axis starts a new path at `p`; directions are kept. */
  function Reseeded(axes: seq<Axis>, tracks: PerAxis<AxisTrack>, p: Point): (r: PerAxis<AxisTrack>)
    ensures forall a: Axis :: a in axes ==> r.Get(a) == tracks.Get(a).(path := [p.Get(a)], speed := [])
    ensures forall a: Axis :: a !in axes ==> r.Get(a) == tracks.Get(a)
  {
    Update(axes, tracks, (a: Axis, t: AxisTrack) => t.(path := [p.Get(a)], speed := []))
  }

  datatype Moved = Moved(tracks: PerAxis<AxisTrack>, push: PerAxis<Push>)

  /** A processed move on every configured axis; the others keep their track and push
      nothing. */
  function AdvanceAll(axes: seq<Axis>, tracks: PerAxis<AxisTrack>, p: Point, ms: int): (r: Moved)
    ensures forall a: Axis :: a in axes ==>
              Advanced(r.tracks.Get(a), r.push.Get(a)) == Advance(tracks.Get(a), p.Get(a), ms)
    ensures forall a: Axis :: a !in axes ==> r.tracks.Get(a) == tracks.Get(a) && r.push.Get(a) == Push(0, 0)
  {
    var ax := if X in axes then Advance(tracks.x, p.x, ms) else Advanced(tracks.x, Push(0, 0));
    var ay := if Y in axes then Advance(tracks.y, p.y, ms) else Advanced(tracks.y, Push(0, 0));
    Moved(PerAxis(ax.track, ay.track), PerAxis(ax.push, ay.push))
  }

  /** The lock's test: since the start point, the finger moved further across the target
      axis than along it (a tie stays on the axis). */
  predicate LeavesAxis(target: Axis, start: Point, p: Point) {
    Abs(p.Get(Opposite(target)) - start.Get(Opposite(target))) > Abs(p.Get(target) - start.Get(target))
  }

  // MOMENTUM

  datatype Release = Release(direction: int, pxPerFrame: real)

  const NoRelease: Release := Release(0, 0.0)

  function SumPx(s: seq<Sample>): nat {
    if s == [] then 0 else s[0].px + SumPx(s[1..])
  }

  /** How many trailing samples the estimator averages: all of them, or at most
      `maxPoints`. */
  function PointsToConsider(n: nat, maxPoints: int): (k: int)
    ensures k <= n && k <= maxPoints
    ensures k == n || k == maxPoints
  {
    if n < maxPoints then n else maxPoints
  }

  /** The mean pixel distance of the last `PointsToConsider` samples, or 0 when there are
      none to consider. */
  function TrailingMean(speed: seq<Sample>, maxPoints: int): (r: real)
    ensures r >= 0.0
    ensures var k := PointsToConsider(|speed|, maxPoints);
            k > 0 ==> r * (k as real) == SumPx(speed[|speed| - k..]) as real
  {
    var k := PointsToConsider(|speed|, maxPoints);
    if k <= 0 then 0.0
    else
      Rescale(SumPx(speed[|speed| - k..]) as real, k as real);
      (SumPx(speed[|speed| - k..]) as real) / (k as real)
  }

  /** The estimator's loop: walks the samples backwards from the last one, adding each
      distance divided by the number of samples considered. */
  method AverageOfTrailing(speed: seq<Sample>, maxPoints: int) returns (avg: real)
    ensures avg == TrailingMean(speed, maxPoints)
    ensures PointsToConsider(|speed|, maxPoints) > 0 ==>
              avg * (PointsToConsider(|speed|, maxPoints) as real) == SumPx(speed[|speed| - PointsToConsider(|speed|, maxPoints)..]) as real
    ensures PointsToConsider(|speed|, maxPoints) <= 0 ==> avg == 0.0
  {
    var n := |speed|;
    var k := PointsToConsider(n, maxPoints);
    avg := 0.0;
    if k <= 0 {
      return;
    }
    var i := n - 1;
    while i >= n - k
      invariant n - k - 1 <= i <= n - 1
      invariant avg == (SumPx(speed[i + 1..]) as real) / (k as real)
    {
      MeanStep(speed, i, k);
      avg := avg + (speed[i].px as real) / (k as real);
      i := i - 1;
    }
    Rescale(SumPx(speed[n - k..]) as real, k as real);
  }

  /** One step of the backwards walk: the share of sample `i` joins the shares of the
      samples after it. */
  lemma MeanStep(speed: seq<Sample>, i: nat, k: nat)
    requires i < |speed| && k > 0
    ensures (SumPx(speed[i + 1..]) as real) / (k as real) + (speed[i].px as real) / (k as real)
              == (SumPx(speed[i..]) as real) / (k as real)
  {
    assert speed[i..][1..] == speed[i + 1..];
    assert SumPx(speed[i..]) == speed[i].px + SumPx(speed[i + 1..]);
    SplitQuotient(SumPx(speed[i + 1..]) as real, speed[i].px as real, k as real);
  }

  /** A quotient of a sum is the sum of the quotients. */
  lemma SplitQuotient(x: real, p: real, k: real)
    requires k > 0.0
    ensures (p + x) / k == x / k + p / k
  {
  }

  lemma Rescale(x: real, k: real)
    requires k > 0.0
    ensures (x / k) * k == x
  {
  }

  lemma {:induction false} SumPxPositive(s: seq<Sample>)
    ensures SumPx(s) > 0 <==> exists i :: 0 <= i < |s| && s[i].px > 0
  {
    if s != [] {
      SumPxPositive(s[1..]);
      if SumPx(s[1..]) > 0 {
        var j :| 0 <= j < |s[1..]| && s[1..][j].px > 0;
        assert s[j + 1].px > 0;
      }
      if s[0].px == 0 && SumPx(s[1..]) == 0 {
        forall i | 0 <= i < |s|
          ensures s[i].px == 0
        {
          if i > 0 {
            assert s[i] == s[1..][i - 1];
          }
        }
      }
    }
  }

  lemma QuotientPositive(x: real, k: real)
    requires k > 0.0
    ensures x / k > 0.0 <==> x > 0.0
  {
    assert x == (x / k) * k;
  }

  /** Some sample is considered, and one of the considered samples has a non-zero distance. */
  predicate RecentMove(speed: seq<Sample>, maxPoints: int) {
    var k := PointsToConsider(|speed|, maxPoints);
    k > 0 && exists i :: |speed| - k <= i < |speed| && speed[i].px > 0
  }

  /** The estimate is positive exactly when some averaged sample moved. */
  lemma MeanPositive(speed: seq<Sample>, maxPoints: int)
    ensures TrailingMean(speed, maxPoints) > 0.0 <==> RecentMove(speed, maxPoints)
  {
    var k := PointsToConsider(|speed|, maxPoints);
    if k > 0 {
      var tail := speed[|speed| - k..];
      QuotientPositive(SumPx(tail) as real, k as real);
      SumPxPositive(tail);
      if exists i :: |speed| - k <= i < |speed| && speed[i].px > 0 {
        var i :| |speed| - k <= i < |speed| && speed[i].px > 0;
        assert tail[i - (|speed| - k)].px > 0;
      }
      if SumPx(tail) > 0 {
        var j :| 0 <= j < |tail| && tail[j].px > 0;
        assert speed[|speed| - k + j].px > 0;
      }
    }
  }

  /** The minimum-distance rule: the path must span at least `minPx` from its first to its
      last position. An empty path passes, because the source's comparison there is against
      NaN and comes out false. */
  predicate Qualifies(path: seq<int>, minPx: int) {
    |path| == 0 || Abs(Last(path) - path[0]) >= minPx
  }

  /** One axis of the momentum estimate: an axis that did not travel far enough releases
      nothing; otherwise it releases in its committed direction with the mean distance of its
      trailing samples, which is positive exactly when one of those samples moved. */
  function AxisRelease(t: AxisTrack, minPx: int, maxPoints: int): (r: Release)
    ensures r.pxPerFrame >= 0.0
    ensures !Qualifies(t.path, minPx) ==> r == NoRelease
    ensures Qualifies(t.path, minPx) ==> r.direction == t.direction
    ensures var k := PointsToConsider(|t.speed|, maxPoints);
            Qualifies(t.path, minPx) && k > 0 ==>
              r.pxPerFrame * (k as real) == SumPx(t.speed[|t.speed| - k..]) as real
    ensures r.pxPerFrame > 0.0 <==> Qualifies(t.path, minPx) && RecentMove(t.speed, maxPoints)
  {
    MeanPositive(t.speed, maxPoints);
    if Qualifies(t.path, minPx) then Release(t.direction, TrailingMean(t.speed, maxPoints)) else NoRelease
  }

  /** The momentum estimate of every configured axis; the others carry none. */
  function Releases(axes: seq<Axis>, tracks: PerAxis<AxisTrack>, minPx: int, maxPoints: int): (r: PerAxis<Release>)
    ensures forall a: Axis :: a in axes ==> r.Get(a) == AxisRelease(tracks.Get(a), minPx, maxPoints)
    ensures forall a: Axis :: a !in axes ==> r.Get(a) == NoRelease
  {
    PerAxis(if X in axes then AxisRelease(tracks.x, minPx, maxPoints) else NoRelease,
            if Y in axes then AxisRelease(tracks.y, minPx, maxPoints) else NoRelease)
  }

  predicate AnyMomentum(m: PerAxis<Release>) {
    m.x.pxPerFrame > 0.0 || m.y.pxPerFrame > 0.0
  }

  // OUTPUT

  /** The events a tracker emits, one variant per event kind with its own payload. */
  datatype Output = TouchStart | PushBy(push: PerAxis<Push>) | TouchEnd | Momentum(release: PerAxis<Release>)

  /** The result of one handler call: the new state, the events emitted in order, and whether
      the native event's default action and propagation were suppressed. */
  datatype Step<S> = Step(state: S, out: seq<Output>, preventDefault: bool, stopPropagation: bool)

  // RUNS

  /** The final state and every event of a sequence of handler calls. */
  datatype Trace<S> = Trace(state: S, out: seq<Output>)

  /** The run of a sequence of inputs through a total step function. */
  function Chain<S, I>(f: (S, I) -> Step<S>, s: S, inputs: seq<I>): Trace<S>
    decreases |inputs|
  {
    if inputs == [] then Trace(s, [])
    else
      var step := f(s, inputs[0]);
      var rest := Chain(f, step.state, inputs[1..]);
      Trace(rest.state, step.out + rest.out)
  }

  /** Running two input sequences one after the other is running their concatenation,
      whatever the step function. */
  lemma {:induction false} ChainAppend<S, I>(f: (S, I) -> Step<S>, s: S, a: seq<I>, b: seq<I>)
    ensures Chain(f, s, a + b) ==
              var first := Chain(f, s, a);
              var second := Chain(f, first.state, b);
              Trace(second.state, first.out + second.out)
    decreases |a|
  {
    if a == [] {
      assert a + b == b;
    } else {
      assert (a + b)[0] == a[0];
      assert (a + b)[1..] == a[1..] + b;
      ChainAppend(f, f(s, a[0]).state, a[1..], b);
    }
  }
}
