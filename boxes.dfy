/**
 * A block of the tower or a falling overhang: its render mesh (position and
 * scale), its physics body (position, shapes, mass), its footprint and the
 * axis it moves along. BoxState is what a block is at one moment; Block is the
 * object the game keeps and changes in place. The constructor is the
 * record-building part of generateBox; Block.Cut is cutBox.
 */
module Boxes {
  import opened Geometry

  /** Mass a dynamic ("falling") block of full size 3 x 3 gets; a fixed block gets 0. */
  const FallingMass: real := 5.0

  /**
   * The physics mass of a block: zero for a block that must stay put (which pins it
   * in the physics world), and otherwise proportional to the block's footprint area,
   * a full-size block weighing FallingMass.
   */
  function Mass(width: real, depth: real, falls: bool): (m: real)
    ensures !falls ==> m == 0.0
    ensures falls ==> m * (OriginalBoxSize * OriginalBoxSize) == FallingMass * (width * depth)
    ensures falls && width > 0.0 && depth > 0.0 ==> m > 0.0
    ensures falls && (width == 0.0 || depth == 0.0) ==> m == 0.0
  {
    (if falls then FallingMass else 0.0) * (width / OriginalBoxSize) * (depth / OriginalBoxSize)
  }

  /** Half-extents of the physics box of a width-by-depth block: the box's full size is the block's. */
  function HalfExtents(width: real, depth: real): (h: Vec3)
    ensures 2.0 * h.x == width && 2.0 * h.y == BoxHeight && 2.0 * h.z == depth
  {
    Vec3(width / 2.0, BoxHeight / 2.0, depth / 2.0)
  }

  /** A block at one moment. */
  datatype BoxState = BoxState(
    /** Position of the render mesh. */
    renderPos: Vec3,
    /** Scale of the render mesh relative to the geometry it was built with. */
    renderScale: Vec3,
    /** Position of the physics body. */
    bodyPos: Vec3,
    /** The physics body's shapes, each a box given by its half-extents. */
    shapes: seq<Vec3>,
    mass: real,
    width: real,
    depth: real,
    /** Set for layers of the stack, unset for the base and for overhangs. */
    direction: Option<Axis>)
  {
    /** The footprint along `a`, centred at the render position. */
    function Along(a: Axis): Span
    {
      Span(Coord(renderPos, a), Extent(width, depth, a))
    }

    /** The physics body is a single box of the block's own footprint and height. */
    predicate BodyFits()
    {
      shapes == [HalfExtents(width, depth)]
    }
  }

  /**
   * The block generateBox builds: mesh and body both at (x, y, z), a footprint of
   * width along X and depth along Z, a body that fits it, a mass by Mass, unscaled,
   * and no direction yet.
   */
  function NewBox(x: real, y: real, z: real, width: real, depth: real, falls: bool): (b: BoxState)
    ensures b.Along(X) == Span(x, width) && b.Along(Z) == Span(z, depth)
    ensures b.renderPos.y == y && b.bodyPos == b.renderPos
    ensures b.BodyFits() && b.renderScale == Vec3(1.0, 1.0, 1.0)
    ensures b.mass == Mass(width, depth, falls) && b.direction == None
  {
    var at := Vec3(x, y, z);
    BoxState(at, Vec3(1.0, 1.0, 1.0), at, [HalfExtents(width, depth)],
             Mass(width, depth, falls), width, depth, None)
  }

  /**
   * cutBox on a block: along the block's direction its footprint becomes `overlap`
   * long and moves back by delta/2, mesh and body alike, and the mesh is rescaled
   * to overlap/size of the geometry it was built with; across that axis nothing
   * moves or shrinks; the body is rebuilt to fit the new footprint.
   */
  function CutBox(b: BoxState, overlap: real, size: real, delta: real): (c: BoxState)
    requires b.direction.Some? && size != 0.0
    ensures var a := b.direction.value;
      && c.Along(a) == Span(b.Along(a).center - delta / 2.0, overlap)
      && c.Along(Opposite(a)) == b.Along(Opposite(a))
      && Coord(c.bodyPos, a) == Coord(b.bodyPos, a) - delta / 2.0
      && Coord(c.bodyPos, Opposite(a)) == Coord(b.bodyPos, Opposite(a))
      && Coord(c.renderScale, a) == overlap / size
      && Coord(c.renderScale, Opposite(a)) == Coord(b.renderScale, Opposite(a))
    ensures c.renderPos.y == b.renderPos.y && c.bodyPos.y == b.bodyPos.y
    ensures b.bodyPos == b.renderPos ==> c.bodyPos == c.renderPos
    ensures c.renderScale.y == b.renderScale.y
    ensures c.BodyFits() && c.mass == b.mass && c.direction == b.direction
  {
    var a := b.direction.value;
    var width := if a == X then overlap else b.width;
    var depth := if a == Z then overlap else b.depth;
    b.(width := width, depth := depth,
       renderScale := WithCoord(b.renderScale, a, overlap / size),
       renderPos := Shift(b.renderPos, a, -delta / 2.0),
       bodyPos := Shift(b.bodyPos, a, -delta / 2.0),
       shapes := [HalfExtents(width, depth)])
  }

  class Block {
    var renderPos: Vec3
    var renderScale: Vec3
    var bodyPos: Vec3
    var shapes: seq<Vec3>
    const mass: real
    var width: real
    var depth: real
    var direction: Option<Axis>

    /** What the block is now. */
    function State(): BoxState
      reads this
    {
      BoxState(renderPos, renderScale, bodyPos, shapes, mass, width, depth, direction)
    }

    /** generateBox without its registration with the scene and the world. */
    constructor (x: real, y: real, z: real, width: real, depth: real, falls: bool)
      ensures State() == NewBox(x, y, z, width, depth, falls)
    {
      renderPos := Vec3(x, y, z);
      renderScale := Vec3(1.0, 1.0, 1.0);
      bodyPos := Vec3(x, y, z);
      shapes := [HalfExtents(width, depth)];
      mass := Mass(width, depth, falls);
      this.width := width;
      this.depth := depth;
      direction := None;
    }

    /** cutBox: the block becomes CutBox of what it was. */
    method Cut(overlap: real, size: real, delta: real)
      requires direction.Some? && size != 0.0
      modifies this
      ensures State() == CutBox(old(State()), overlap, size, delta)
    {
      var a := direction.value;
      var newWidth := if a == X then overlap else width;
      var newDepth := if a == Z then overlap else depth;

      width := newWidth;
      depth := newDepth;

      renderScale := WithCoord(renderScale, a, overlap / size);
      renderPos := Shift(renderPos, a, -delta / 2.0);

      bodyPos := Shift(bodyPos, a, -delta / 2.0);

      shapes := [HalfExtents(newWidth, newDepth)];
    }
  }
}
