/** The tracker configuration: its defaults, the merge of user options over them, and the
    normalisation both constructors apply afterwards. */
module Settings {
  import opened Touches

  datatype Config = Config(
    axes: seq<Axis>,
    capture: bool,
    momentum: bool,
    lock: bool,
    minPxForMomentum: int,
    maxPointsForMomentum: int,
    maxTimeDiffForMomentum: int)

  /** The default configuration: both axes, momentum on, no lock, 3 px, 3 samples, 66 ms. */
  const Defaults: Config := Config([X, Y], false, true, false, 3, 3, 66)

  /** The options a caller passes to the constructor; `None` means the key is absent. */
  datatype Options = Options(
    axes: Option<seq<Axis>>,
    capture: Option<bool>,
    momentum: Option<bool>,
    lock: Option<bool>,
    minPxForMomentum: Option<int>,
    maxPointsForMomentum: Option<int>,
    maxTimeDiffForMomentum: Option<int>)

  const NoOptions: Options := Options(None, None, None, None, None, None, None)

  function Pick<T>(o: Option<T>, default: T): T {
    match o
    case Some(v) => v
    case None => default
  }

  /** Every option the caller gives replaces the default of the same name. */
  function Merge(o: Options): (c: Config)
    ensures o.axes.Some? ==> c.axes == o.axes.value
    ensures o.axes.None? ==> c.axes == Defaults.axes
    ensures o.capture.Some? ==> c.capture == o.capture.value
    ensures o.capture.None? ==> c.capture == Defaults.capture
    ensures o.momentum.Some? ==> c.momentum == o.momentum.value
    ensures o.momentum.None? ==> c.momentum == Defaults.momentum
    ensures o.lock.Some? ==> c.lock == o.lock.value
    ensures o.lock.None? ==> c.lock == Defaults.lock
    ensures o.minPxForMomentum.Some? ==> c.minPxForMomentum == o.minPxForMomentum.value
    ensures o.minPxForMomentum.None? ==> c.minPxForMomentum == Defaults.minPxForMomentum
    ensures o.maxPointsForMomentum.Some? ==> c.maxPointsForMomentum == o.maxPointsForMomentum.value
    ensures o.maxPointsForMomentum.None? ==> c.maxPointsForMomentum == Defaults.maxPointsForMomentum
    ensures o.maxTimeDiffForMomentum.Some? ==> c.maxTimeDiffForMomentum == o.maxTimeDiffForMomentum.value
    ensures o.maxTimeDiffForMomentum.None? ==> c.maxTimeDiffForMomentum == Defaults.maxTimeDiffForMomentum
    ensures o == NoOptions ==> c == Defaults
  {
    Config(
      Pick(o.axes, Defaults.axes),
      Pick(o.capture, Defaults.capture),
      Pick(o.momentum, Defaults.momentum),
      Pick(o.lock, Defaults.lock),
      Pick(o.minPxForMomentum, Defaults.minPxForMomentum),
      Pick(o.maxPointsForMomentum, Defaults.maxPointsForMomentum),
      Pick(o.maxTimeDiffForMomentum, Defaults.maxTimeDiffForMomentum))
  }

  /** The constructor's repair of a merged configuration: a lock is dropped when two axes
      are followed, and a lock that survives turns capture on. Nothing else changes. */
  function Normalize(c: Config): (r: Config)
    ensures |c.axes| > 1 ==> !r.lock
    ensures r.lock ==> r.capture
    ensures r.lock <==> c.lock && |c.axes| <= 1
    ensures r.capture <==> c.capture || r.lock
    ensures r.(lock := c.lock, capture := c.capture) == c
  {
    var lock := if |c.axes| > 1 then false else c.lock;
    var capture := if lock then true else c.capture;
    c.(lock := lock, capture := capture)
  }

  /** The configuration a constructor call with options `o` ends up with. */
  function FromOptions(o: Options): Config {
    Normalize(Merge(o))
  }

  /** One or two distinct axes: the axis strings "x", "y", "xy" and "yx". */
  predicate ValidAxes(axes: seq<Axis>) {
    1 <= |axes| <= 2 && (|axes| == 2 ==> axes[0] != axes[1])
  }

  /** What the handlers rely on: valid axes, and a lock only on a single axis, with capture. */
  predicate WellFormed(c: Config) {
    ValidAxes(c.axes) && (c.lock ==> |c.axes| == 1 && c.capture)
  }

  lemma FromOptionsWellFormed(o: Options)
    requires o.axes.Some? ==> ValidAxes(o.axes.value)
    ensures WellFormed(FromOptions(o))
    ensures FromOptions(o).lock <==> Merge(o).lock && |Merge(o).axes| == 1
  {
  }
}
