/** Axes, points and the normalised touch-event snapshots both trackers consume. */
module Touches {

  /** The two scroll axes a tracker can follow. */
  datatype Axis = X | Y

  /** The other axis: the one a lock compares the target axis against. */
  function Opposite(a: Axis): (b: Axis)
    ensures b != a
  {
    match a
    case X => Y
    case Y => X
  }

  /** One value per axis: the shape of every `{x: …, y: …}` object of the trackers. */
  datatype PerAxis<T> = PerAxis(x: T, y: T) {

    function Get(a: Axis): T {
      match a
      case X => x
      case Y => y
    }
  }

  /** A position in integer page pixels. */
  type Point = PerAxis<int>

  datatype Option<T> = None | Some(value: T)

  /** One contact point of a touch event: its stable identifier and its page position. */
  datatype Touch = Touch(id: int, pageX: int, pageY: int) {
    function Position(): Point {
      PerAxis(pageX, pageY)
    }
  }

  /** What a handler reads from a native touch event: `touches`, the identifier of
      `changedTouches[0]`, and the length of `targetTouches`. */
  datatype Snapshot = Snapshot(touches: seq<Touch>, changedId: int, targetCount: nat)

  /** `targetTouches` is a sub-list of `touches`, so it can never be longer. */
  predicate WellFormedSnapshot(ev: Snapshot) {
    ev.targetCount <= |ev.touches|
  }

  function Abs(n: int): (r: nat)
    ensures r == n || r == -n
  {
    if n < 0 then -n else n
  }

  /** The values a direction can take: -1, 0 (unknown) and 1. */
  predicate IsDirection(d: int) {
    d == -1 || d == 0 || d == 1
  }

  function Last<T>(s: seq<T>): T
    requires |s| > 0
  {
    s[|s| - 1]
  }
}
