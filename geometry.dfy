/**
 * Shared vocabulary of the block-stacking game: the two horizontal axes a
 * layer can move along, 3-vectors for positions, scales and half-extents,
 * and one-dimensional spans (a block's footprint along one axis).
 *
 * JavaScript numbers are modelled as exact reals.
 */
module Geometry {

  datatype Option<T> = None | Some(value: T)

  /** The horizontal axis a layer moves along and is cut along ('x' or 'z' in the game). */
  datatype Axis = X | Z

  datatype Vec3 = Vec3(x: real, y: real, z: real)

  /** A footprint along one axis: a centre and a length. */
  datatype Span = Span(center: real, length: real) {
    function Lo(): real { center - length / 2.0 }
    function Hi(): real { center + length / 2.0 }
  }

  /** Height of every layer. */
  const BoxHeight: real := 1.0
  /** Width and depth of the base and of the first layer. */
  const OriginalBoxSize: real := 3.0

  /** The other horizontal axis: layers alternate between X and Z. */
  function Opposite(a: Axis): (b: Axis)
    ensures b != a
  {
    if a == X then Z else X
  }

  /** The coordinate of `v` along the horizontal axis `a`. */
  function Coord(v: Vec3, a: Axis): real
  {
    if a == X then v.x else v.z
  }

  /** `v` with its coordinate along `a` replaced by `c`. */
  function WithCoord(v: Vec3, a: Axis, c: real): (w: Vec3)
    ensures Coord(w, a) == c
    ensures Coord(w, Opposite(a)) == Coord(v, Opposite(a)) && w.y == v.y
  {
    if a == X then Vec3(c, v.y, v.z) else Vec3(v.x, v.y, c)
  }

  /** `v` moved by `d` along `a`; the other two coordinates stay. */
  function Shift(v: Vec3, a: Axis, d: real): (w: Vec3)
    ensures Coord(w, a) == Coord(v, a) + d
    ensures Coord(w, Opposite(a)) == Coord(v, Opposite(a)) && w.y == v.y
  {
    WithCoord(v, a, Coord(v, a) + d)
  }

  /** The extent of a width-by-depth footprint along `a`. */
  function Extent(width: real, depth: real, a: Axis): real
  {
    if a == X then width else depth
  }

  function Abs(r: real): real
  {
    if r < 0.0 then -r else r
  }

  /** Math.sign: -1, 0 or 1. */
  function Sign(r: real): real
  {
    if r < 0.0 then -1.0 else if r > 0.0 then 1.0 else 0.0
  }

  function Min(a: real, b: real): real
  {
    if a <= b then a else b
  }

  function Max(a: real, b: real): real
  {
    if a <= b then b else a
  }

  /** Signed length of the part two spans have in common: positive exactly when they properly overlap. */
  function Common(s: Span, t: Span): real
  {
    Min(s.Hi(), t.Hi()) - Max(s.Lo(), t.Lo())
  }
}
