/**
 * A frame is a two-dimensional numpy array indexed [channel, tick].  Its
 * shape is kept explicitly, so that a frame with no channels still has a
 * tick extent, as a numpy array of shape (0, n) does.  Values are integers:
 * charges and labels both, as the model does not follow numpy's dtypes.
 */
module Frames {

  datatype Option<T> = None | Some(value: T)

  datatype Frame = Frame(channels: nat, ticks: nat, cells: seq<seq<int>>)

  /** `data.shape` */
  datatype Shape = Shape(channels: nat, ticks: nat)

  function ShapeOf(f: Frame): Shape {
    Shape(f.channels, f.ticks)
  }

  /** The cells form a channels x ticks rectangle. */
  predicate WellFormed(f: Frame) {
    |f.cells| == f.channels &&
    forall c :: 0 <= c < |f.cells| ==> |f.cells[c]| == f.ticks
  }

  /** The cell [c, t] of f. */
  function At(f: Frame, c: int, t: int): int
    requires WellFormed(f) && 0 <= c < f.channels && 0 <= t < f.ticks
  {
    f.cells[c][t]
  }

  /** A channels x ticks frame of zeros (`np.zeros`). */
  function Zeros(channels: nat, ticks: nat): (z: Frame)
    ensures WellFormed(z) && z.channels == channels && z.ticks == ticks
    ensures forall c, t :: 0 <= c < channels && 0 <= t < ticks ==> z.cells[c][t] == 0
  {
    Frame(channels, ticks, seq(channels, _ => seq(ticks, _ => 0)))
  }

  /**
   * Element-wise sum of two frames of one shape (`a + b`).  The tool never
   * adds frames; this states that block summing is linear.
   */
  function Add(a: Frame, b: Frame): (s: Frame)
    requires WellFormed(a) && WellFormed(b) && ShapeOf(a) == ShapeOf(b)
    ensures WellFormed(s) && ShapeOf(s) == ShapeOf(a)
    ensures forall c, t :: 0 <= c < a.channels && 0 <= t < a.ticks ==>
              s.cells[c][t] == a.cells[c][t] + b.cells[c][t]
  {
    Frame(a.channels, a.ticks,
      seq(a.channels, c requires 0 <= c < a.channels =>
        seq(a.ticks, t requires 0 <= t < a.ticks => a.cells[c][t] + b.cells[c][t])))
  }

  /** All of `rows` are channels of f. */
  predicate RowsInside(f: Frame, rows: seq<int>) {
    forall k :: 0 <= k < |rows| ==> 0 <= rows[k] < f.channels
  }

  /**
   * `f[rows, :]`: row k of the result is row rows[k] of f.  numpy would also
   * accept negative indices, counting from the end; the plane channels the
   * model slices with are never negative, so they are not modelled.
   */
  function SliceRows(f: Frame, rows: seq<int>): (r: Frame)
    requires WellFormed(f) && RowsInside(f, rows)
    ensures WellFormed(r) && r.channels == |rows| && r.ticks == f.ticks
    ensures forall k, t :: 0 <= k < |rows| && 0 <= t < f.ticks ==> r.cells[k][t] == f.cells[rows[k]][t]
  {
    Frame(|rows|, f.ticks, seq(|rows|, k requires 0 <= k < |rows| => f.cells[rows[k]]))
  }

  function Min(a: int, b: int): int {
    if a <= b then a else b
  }
}
