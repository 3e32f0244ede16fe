/**
 * One play session of the block-stacking game: the stack of layers, the
 * falling overhangs, the physics world's and the scene's registered blocks,
 * the autopilot and end-of-game flags, the speed and the score and level
 * counters. The functions before the class say what one layer is and what a
 * cut, a miss and an animation step make of the blocks; the class's methods
 * are the game loop's operations.
 */
module Stacking {
  import opened Geometry
  import opened Boxes
  import opened Rules

  /** Height of the blocks of layer `i`, and of the overhangs cut or dropped from it. */
  function LayerY(i: nat): real
  {
    BoxHeight * (i as real)
  }

  /**
   * Layer `i` of the stack: a positive footprint its physics body fits, mesh and
   * body at the same place (the game, not the physics engine, moves stack layers),
   * at height i, fixed (mass 0), and moving along LayerAxis(i) unless it is the base.
   */
  predicate IsLayer(b: BoxState, i: nat)
  {
    && b.width > 0.0 && b.depth > 0.0 && b.BodyFits()
    && b.bodyPos == b.renderPos && b.renderPos.y == LayerY(i)
    && b.mass == 0.0
    && b.direction == (if i == 0 then None else Some(LayerAxis(i)))
  }

  /**
   * The moving layer has the footprint of the layer below and sits right over it
   * across the axis it moves along, so only its own axis decides the cut.
   */
  predicate RestsOver(top: BoxState, prev: BoxState)
  {
    && top.direction.Some?
    && top.width == prev.width && top.depth == prev.depth
    && top.Along(Opposite(top.direction.value)) == prev.Along(Opposite(top.direction.value))
  }

  /** The overlap test for a moving layer `top` against the layer `prev` below it. */
  function MeasureOf(top: BoxState, prev: BoxState): Measure
    requires top.direction.Some?
  {
    var a := top.direction.value;
    MeasureOverlap(top.Along(a).length, top.Along(a).center, prev.Along(a).center)
  }

  /** The block addLayer puts on a stack of `i` layers. */
  function LayerBox(x: real, z: real, width: real, depth: real, direction: Option<Axis>, i: nat): (b: BoxState)
    ensures b.Along(X) == Span(x, width) && b.Along(Z) == Span(z, depth)
    ensures b.renderPos.y == LayerY(i) && b.mass == 0.0 && b.direction == direction
  {
    NewBox(x, LayerY(i), z, width, depth, false).(direction := direction)
  }

  /**
   * The block addOverhang adds after a cut left `cut` as layer `i`: the piece of
   * the measured overhang size, placed from the cut layer's new centre by
   * (overlap/2 + overhangSize/2) * sign(delta) along the cut axis, as wide as the
   * cut layer across it, at the same height, and falling.
   */
  function CutOverhang(cut: BoxState, m: Measure, i: nat): BoxState
    requires cut.direction.Some?
  {
    var a := cut.direction.value;
    var shift := (m.overlap / 2.0 + m.overhangSize / 2.0) * Sign(m.delta);
    NewBox(if a == X then cut.renderPos.x + shift else cut.renderPos.x,
           LayerY(i),
           if a == Z then cut.renderPos.z + shift else cut.renderPos.z,
           if a == X then m.overhangSize else cut.width,
           if a == Z then m.overhangSize else cut.depth,
           true)
  }

  /**
   * The layer addLayer puts on top of the cut layer `cut`, which is layer i - 1:
   * the cut size, moving along the other axis from OffStage on it, and level with
   * the cut layer along the cut axis.
   */
  function NextLayer(cut: BoxState, i: nat): BoxState
    requires cut.direction.Some?
  {
    var a := cut.direction.value;
    LayerBox(if a == X then cut.renderPos.x else OffStage,
             if a == Z then cut.renderPos.z else OffStage,
             cut.width, cut.depth, Some(Opposite(a)), i)
  }

  /**
   * The falling copy missedTheSpot drops for the moving layer `top` of a stack of
   * i + 1 layers: top's footprint on both axes, at height i, with a mass.
   */
  function DroppedCopy(top: BoxState, i: nat): (d: BoxState)
    ensures d.Along(X) == top.Along(X) && d.Along(Z) == top.Along(Z)
    ensures d.renderPos.y == LayerY(i) && d.direction == None
    ensures top.width > 0.0 && top.depth > 0.0 ==> d.mass > 0.0
  {
    NewBox(top.renderPos.x, LayerY(i), top.renderPos.z, top.width, top.depth, true)
  }

  /** One animation step of a moving layer: mesh and body both move by `d` along `a`. */
  function Moved(b: BoxState, a: Axis, d: real): (c: BoxState)
    ensures c.Along(a) == Span(b.Along(a).center + d, b.Along(a).length)
    ensures c.Along(Opposite(a)) == b.Along(Opposite(a)) && c.renderPos.y == b.renderPos.y
    ensures b.bodyPos == b.renderPos ==> c.bodyPos == c.renderPos
    ensures c.(renderPos := b.renderPos, bodyPos := b.bodyPos) == b
  {
    b.(renderPos := Shift(b.renderPos, a, d), bodyPos := Shift(b.bodyPos, a, d))
  }

  /**
   * The body coordinates of a move step: the body goes d further along the axis
   * and stays put across it and in height, whether or not it was with the mesh.
   */
  lemma MovedShiftsBody(b: BoxState, a: Axis, d: real)
    ensures Coord(Moved(b, a, d).bodyPos, a) == Coord(b.bodyPos, a) + d
    ensures Coord(Moved(b, a, d).bodyPos, Opposite(a)) == Coord(b.bodyPos, Opposite(a))
    ensures Moved(b, a, d).bodyPos.y == b.bodyPos.y
  {
  }

  /** A moving layer that is moved is still the same layer, over the same layer below. */
  lemma MovedStaysLayer(top: BoxState, prev: BoxState, i: nat, d: real)
    requires IsLayer(top, i) && RestsOver(top, prev)
    ensures IsLayer(Moved(top, top.direction.value, d), i)
    ensures RestsOver(Moved(top, top.direction.value, d), prev)
  {
  }

  /**
   * Where addOverhang puts the overhang of a cut: as long along the cut axis as
   * the measured overhang size and flush against the cut layer on the side the
   * layer overshot, on its centre for a perfect cut; as wide as the cut layer
   * across the axis; at the layer's height, with mesh and body together, moving
   * along no axis and falling by the mass rule.
   */
  lemma CutOverhangPlaced(cut: BoxState, m: Measure, i: nat)
    requires cut.direction.Some?
    ensures var a := cut.direction.value;
      var o := CutOverhang(cut, m, i);
      && o.Along(a).length == m.overhangSize
      && (cut.Along(a).length == m.overlap && m.delta > 0.0 ==> o.Along(a).Lo() == cut.Along(a).Hi())
      && (cut.Along(a).length == m.overlap && m.delta < 0.0 ==> o.Along(a).Hi() == cut.Along(a).Lo())
      && (m.delta == 0.0 ==> o.Along(a).center == cut.Along(a).center)
      && o.Along(Opposite(a)) == cut.Along(Opposite(a))
    ensures var o := CutOverhang(cut, m, i);
      && o.renderPos.y == LayerY(i) && o.bodyPos == o.renderPos && o.direction == None
      && o.mass == Mass(o.width, o.depth, true)
  {
  }

  /**
   * Where addLayer puts the layer after a cut: it moves along the other axis,
   * starting from OffStage, is level with the cut layer along the cut axis and
   * as long as the cut layer on both axes; it sits at height i, mesh and body
   * together, and is fixed.
   */
  lemma NextLayerPlaced(cut: BoxState, i: nat)
    requires cut.direction.Some?
    ensures var a := cut.direction.value;
      var n := NextLayer(cut, i);
      && n.direction == Some(Opposite(a))
      && n.Along(a) == cut.Along(a)
      && n.Along(Opposite(a)) == Span(OffStage, cut.Along(Opposite(a)).length)
    ensures var n := NextLayer(cut, i);
      n.renderPos.y == LayerY(i) && n.bodyPos == n.renderPos && n.mass == 0.0
  {
  }

  /**
   * A successful cut of layer i: the cut layer keeps exactly the part over the
   * layer below and the overhang is the rest, the two pieces of CutPieces; both
   * keep the layer's footprint across the cut axis; the cut layer is still
   * layer i; the overhang falls (has a mass) exactly when it has a size.
   */
  lemma CutLeavesPieces(top: BoxState, prev: BoxState, i: nat)
    requires IsLayer(top, i) && RestsOver(top, prev) && MeasureOf(top, prev).overlap > 0.0
    ensures var a := top.direction.value;
      var m := MeasureOf(top, prev);
      var cut := CutBox(top, m.overlap, top.Along(a).length, m.delta);
      var pieces := CutPieces(top.Along(a), prev.Along(a).center);
      var o := CutOverhang(cut, m, i);
      && cut.Along(a) == pieces.0 && o.Along(a) == pieces.1
      && cut.Along(Opposite(a)) == top.Along(Opposite(a))
      && o.Along(Opposite(a)) == top.Along(Opposite(a))
      && IsLayer(cut, i)
      && o.renderPos.y == cut.renderPos.y
      && (o.mass > 0.0 <==> pieces.1.length > 0.0)
  {
    var a := top.direction.value;
    var m := MeasureOf(top, prev);
    var cut := CutBox(top, m.overlap, top.Along(a).length, m.delta);
    assert cut.Along(a) == Span(top.Along(a).center - m.delta / 2.0, m.overlap);
    var o := CutOverhang(cut, m, i);
    assert o.Along(a).center == cut.Along(a).center + (m.overlap / 2.0 + m.overhangSize / 2.0) * Sign(m.delta);
  }

  /** A cut layer is still the layer it was. */
  lemma CutStaysLayer(top: BoxState, i: nat, overlap: real, size: real, delta: real)
    requires IsLayer(top, i) && top.direction.Some? && size != 0.0 && overlap > 0.0
    ensures IsLayer(CutBox(top, overlap, size, delta), i)
  {
  }

  /**
   * The layer put on a cut layer i - 1 is layer i: it rests over the cut layer,
   * moves along the other axis and starts at OffStage on it.
   */
  lemma NextLayerRests(cut: BoxState, i: nat)
    requires i >= 2 && IsLayer(cut, i - 1)
    ensures IsLayer(NextLayer(cut, i), i) && RestsOver(NextLayer(cut, i), cut)
    ensures NextLayer(cut, i).direction == Some(Opposite(cut.direction.value))
    ensures NextLayer(cut, i).Along(Opposite(cut.direction.value)).center == OffStage
    ensures NextLayer(cut, i).Along(cut.direction.value) == cut.Along(cut.direction.value)
  {
  }

  /**
   * A game at one moment, as its rules see it: the lists of blocks, the flags
   * and counters, and what the moving layer, the layer below it and the latest
   * overhang are.
   */
  datatype GameState = GameState(
    stack: seq<Block>, overhangs: seq<Block>, bodies: seq<Block>, meshes: seq<Block>,
    autopilot: bool, gameEnded: bool, robotPrecision: real,
    speed: real, score: int, level: int,
    top: BoxState, prev: BoxState, lastOverhang: Option<BoxState>)

  /**
   * A game in progress or over: a base and a moving layer at least, each of the
   * two the layer of its position, the moving layer over the one below, score,
   * level and speed where the number of cuts puts them, and the autopilot's
   * precision within half a unit of the layer below.
   */
  predicate Consistent(g: GameState)
  {
    && |g.stack| >= 2
    && IsLayer(g.top, |g.stack| - 1) && IsLayer(g.prev, |g.stack| - 2)
    && RestsOver(g.top, g.prev)
    && g.score == |g.stack| - 2
    && g.level == LevelAfter(g.score) && g.speed == SpeedAfter(g.score)
    && -0.5 <= g.robotPrecision < 0.5
  }

  /** Nothing the game logic keeps has changed from s to t, apart maybe from the moving layer. */
  predicate Still(s: GameState, t: GameState)
  {
    && t.stack == s.stack && t.overhangs == s.overhangs
    && t.bodies == s.bodies && t.meshes == s.meshes
    && t.gameEnded == s.gameEnded
    && t.speed == s.speed && t.score == s.score && t.level == s.level
    && t.prev == s.prev
  }

  /**
   * A miss from s to t: a falling copy of the moving layer, as it is in t, joins
   * the overhangs; the layer itself stays in the stack but leaves the world and
   * the scene; the game ends; the counters and the layer below stay.
   */
  predicate Missed(s: GameState, t: GameState)
  {
    && t.stack == s.stack && |t.stack| >= 1
    && |t.overhangs| == |s.overhangs| + 1 && t.overhangs[..|s.overhangs|] == s.overhangs
    && t.lastOverhang == Some(DroppedCopy(t.top, |t.stack| - 1))
    && t.bodies == Remove(s.bodies + [t.overhangs[|s.overhangs|]], t.stack[|t.stack| - 1])
    && t.meshes == Remove(s.meshes + [t.overhangs[|s.overhangs|]], t.stack[|t.stack| - 1])
    && t.gameEnded
    && t.speed == s.speed && t.score == s.score && t.level == s.level
    && t.prev == s.prev
  }

  /** A miss does not depend on where the moving layer was or what the latest overhang was. */
  lemma MissedFrom(s: GameState, top: BoxState, lastOverhang: Option<BoxState>, t: GameState)
    requires Missed(s.(top := top, lastOverhang := lastOverhang), t)
    ensures Missed(s, t)
  {
  }

  /**
   * t grown from s by a cut of s's moving layer into `cut`, measured as `m`: the
   * cut layer stays in place as the layer below, its overhang joins the
   * overhangs, the NextLayer goes on top, both new blocks are registered with the
   * world and the scene, and score, level and speed advance.
   */
  predicate StackedOn(s: GameState, cut: BoxState, m: Measure, t: GameState)
    requires |s.stack| >= 1 && cut.direction.Some?
  {
    var n := |s.stack|;
    && |t.stack| == n + 1 && t.stack[..n] == s.stack
    && |t.overhangs| == |s.overhangs| + 1 && t.overhangs[..|s.overhangs|] == s.overhangs
    && t.prev == cut
    && t.lastOverhang == Some(CutOverhang(cut, m, n - 1))
    && t.top == NextLayer(cut, n)
    && t.bodies == s.bodies + [t.overhangs[|s.overhangs|], t.stack[n]]
    && t.meshes == s.meshes + [t.overhangs[|s.overhangs|], t.stack[n]]
    && t.score == n - 1
    && t.level == s.level + (if (n - 1) % 10 == 0 then 1 else 0)
    && t.speed == s.speed + (if (n - 1) % 10 == 0 then SpeedIncrement else 0.0)
    && t.gameEnded == s.gameEnded
  }

  /**
   * A successful cut from s to t: the moving layer becomes its CutBox, and t is s
   * StackedOn it. CutLeavesPieces and NextLayerRests say what these blocks are.
   */
  predicate CutDone(s: GameState, t: GameState)
    requires Consistent(s) && MeasureOf(s.top, s.prev).overlap > 0.0
  {
    var m := MeasureOf(s.top, s.prev);
    StackedOn(s, CutBox(s.top, m.overlap, s.top.Along(s.top.direction.value).length, m.delta), m, t)
  }

  /**
   * What splitBlockAndAddNextOneIfOverlaps makes of s: nothing once the game is
   * over; otherwise a cut when the moving layer overlaps the one below, and a
   * miss, which leaves the moving layer as it is, when it does not.
   */
  predicate SplitDone(s: GameState, t: GameState)
    requires Consistent(s)
  {
    if s.gameEnded then Still(s, t) && t.top == s.top
    else if MeasureOf(s.top, s.prev).overlap > 0.0 then CutDone(s, t)
    else Missed(s, t) && t.top == s.top
  }

  /** The autopilot's precision plays no part in what a split does. */
  lemma SplitIgnoresPrecision(s: GameState, t: GameState, precision: real)
    requires Consistent(s) && SplitDone(s, t)
    ensures SplitDone(s, t.(robotPrecision := precision))
  {
  }

  /**
   * The boxShouldMove test of animation: the moving layer moves on while the game
   * is not over, unless the autopilot plays and the layer has reached the offset
   * robotPrecision past the layer below.
   */
  predicate BoxShouldMove(g: GameState)
    requires g.top.direction.Some?
  {
    var a := g.top.direction.value;
    && !g.gameEnded
    && (!g.autopilot || Coord(g.top.renderPos, a) < Coord(g.prev.renderPos, a) + g.robotPrecision)
  }

  /**
   * The moving step of animation from s to t: the moving layer, mesh and body
   * alike, has moved by `step` along its axis, and is a miss once past PlayBound.
   */
  predicate MovedOn(s: GameState, t: GameState, step: real)
    requires s.top.direction.Some?
  {
    var a := s.top.direction.value;
    && t.stack == s.stack && t.top == Moved(s.top, a, step)
    && t.robotPrecision == s.robotPrecision
    && (if Coord(t.top.renderPos, a) > PlayBound then Missed(s, t) else Still(s, t))
  }

  /**
   * What one animation frame after the first, `timePassed` after the previous
   * one, makes of s: the moving layer has moved by speed * timePassed; or the
   * autopilot has stopped it, it is split (SplitDone) and the precision becomes
   * `nextPrecision`; or, the game being over, nothing changes.
   */
  predicate Animated(s: GameState, t: GameState, timePassed: real, nextPrecision: real)
    requires Consistent(s)
  {
    if BoxShouldMove(s) then MovedOn(s, t, s.speed * timePassed)
    else if s.autopilot then t.robotPrecision == nextPrecision && SplitDone(s, t)
    else Still(s, t) && t.top == s.top && t.robotPrecision == s.robotPrecision
  }

  /**
   * When boxShouldMove holds: never once the game is over; in a manual game
   * exactly while it is not; in autopilot not once the layer is robotPrecision
   * or more past the layer below.
   */
  lemma ShouldMoveCases(g: GameState)
    requires g.top.direction.Some?
    ensures g.gameEnded ==> !BoxShouldMove(g)
    ensures !g.autopilot ==> (BoxShouldMove(g) <==> !g.gameEnded)
    ensures var a := g.top.direction.value;
      (g.autopilot && Coord(g.top.renderPos, a) - Coord(g.prev.renderPos, a) >= g.robotPrecision)
      ==> !BoxShouldMove(g)
  {
  }

  /**
   * In the terms of the overlap test, the autopilot stops the moving layer once
   * its delta reaches robotPrecision.
   */
  lemma ShouldMoveByDelta(g: GameState)
    requires Consistent(g)
    ensures BoxShouldMove(g) <==>
      !g.gameEnded && (!g.autopilot || MeasureOf(g.top, g.prev).delta < g.robotPrecision)
  {
  }

  /**
   * A cut keeps a game consistent: the cut layer and the NextLayer on it are the
   * layers of their positions, the NextLayer rests over the cut layer, and the
   * counters are one cut further.
   */
  lemma CutDoneConsistent(s: GameState, t: GameState)
    requires Consistent(s) && MeasureOf(s.top, s.prev).overlap > 0.0
    requires CutDone(s, t) && -0.5 <= t.robotPrecision < 0.5
    ensures Consistent(t)
    ensures t.score == s.score + 1 && t.gameEnded == s.gameEnded
  {
    var n := |s.stack|;
    var m := MeasureOf(s.top, s.prev);
    var cut := CutBox(s.top, m.overlap, s.top.Along(s.top.direction.value).length, m.delta);
    CutStaysLayer(s.top, n - 1, m.overlap, s.top.Along(s.top.direction.value).length, m.delta);
    NextLayerRests(cut, n);
  }

  /**
   * splitBlockAndAddNextOneIfOverlaps keeps a game consistent, whatever precision
   * the autopilot takes next; it scores one exactly on a cut, and a game is over
   * after it exactly when it was over or the moving layer missed.
   */
  lemma SplitConsistent(s: GameState, t: GameState)
    requires Consistent(s) && SplitDone(s, t) && -0.5 <= t.robotPrecision < 0.5
    ensures Consistent(t)
    ensures t.score == s.score + (if !s.gameEnded && MeasureOf(s.top, s.prev).overlap > 0.0 then 1 else 0)
    ensures t.gameEnded <==> s.gameEnded || MeasureOf(s.top, s.prev).overlap <= 0.0
  {
    if !s.gameEnded && MeasureOf(s.top, s.prev).overlap > 0.0 {
      CutDoneConsistent(s, t);
    }
  }

  /** The moving step keeps a game consistent, and ends it exactly when the layer passes PlayBound. */
  lemma MovedConsistent(s: GameState, t: GameState, step: real)
    requires Consistent(s) && MovedOn(s, t, step)
    ensures Consistent(t) && t.score == s.score
    ensures t.gameEnded <==> s.gameEnded || Coord(t.top.renderPos, s.top.direction.value) > PlayBound
  {
    MovedStaysLayer(s.top, s.prev, |s.stack| - 1, step);
  }

  /** Every animation frame keeps a game consistent, given a precision the autopilot may take. */
  lemma AnimatedConsistent(s: GameState, t: GameState, timePassed: real, nextPrecision: real)
    requires Consistent(s) && Animated(s, t, timePassed, nextPrecision)
    requires -0.5 <= nextPrecision < 0.5
    ensures Consistent(t)
  {
    if BoxShouldMove(s) {
      MovedConsistent(s, t, s.speed * timePassed);
    } else if s.autopilot {
      SplitConsistent(s, t);
    }
  }

  /**
   * Once a game is over an animation frame changes nothing the rules keep: the
   * moving layer stays where it is and the game stays over.
   */
  lemma EndedGameStays(s: GameState, t: GameState, timePassed: real, nextPrecision: real)
    requires Consistent(s) && s.gameEnded && Animated(s, t, timePassed, nextPrecision)
    ensures Still(s, t) && t.top == s.top && t.gameEnded
  {
  }

  class Game {
    /** The layers, base first; the last one is the moving layer. */
    var stack: seq<Block>
    /** The pieces cut off or dropped, left to the physics engine. */
    var overhangs: seq<Block>
    /** The blocks whose physics body is in the world, in the world's order. */
    var bodies: seq<Block>
    /** The blocks whose mesh is in the scene, in the scene's order. */
    var meshes: seq<Block>
    var autopilot: bool
    var gameEnded: bool
    /** Where, relative to the layer below, the autopilot stops the moving layer. */
    var robotPrecision: real
    var speed: real
    var score: int
    var level: int
    /** Time stamp of the previous animation frame; 0 until a first frame has been seen. */
    var lastTime: real

    /** The game as its rules see it now. */
    ghost function State(): GameState
      reads this`stack, this`overhangs, this`bodies, this`meshes, this`autopilot,
            this`gameEnded, this`robotPrecision, this`speed, this`score, this`level,
            stack, overhangs
      requires |stack| >= 2
    {
      GameState(stack, overhangs, bodies, meshes, autopilot, gameEnded, robotPrecision,
                speed, score, level, stack[|stack| - 1].State(), stack[|stack| - 2].State(),
                if overhangs == [] then None else Some(overhangs[|overhangs| - 1].State()))
    }

    /**
     * Every block of the stack is the layer of its position, and the stack's
     * blocks are distinct from each other and from the overhangs, so changing
     * one of them changes no other layer.
     */
    ghost predicate Tower()
      reads this`stack, this`overhangs, stack
    {
      forall i | 0 <= i < |stack| :: LayerAt(i)
    }

    /**
     * Block i of the stack is layer i, and it is found neither lower in the
     * stack nor among the overhangs.
     */
    ghost predicate LayerAt(i: nat)
      reads this`stack, this`overhangs, stack
      requires i < |stack|
    {
      && IsLayer(stack[i].State(), i)
      && stack[i] !in stack[..i]
      && stack[i] !in overhangs
    }

    /** The game is Consistent and its stack a Tower. */
    ghost predicate Valid()
      reads this`stack, this`overhangs, this`bodies, this`meshes, this`autopilot,
            this`gameEnded, this`robotPrecision, this`speed, this`score, this`level,
            stack, overhangs
    {
      && |stack| >= 2
      && Tower()
      && Consistent(State())
    }

    /**
     * In a game in progress or over, every layer has a positive footprint, and
     * the layers above the base move along X and Z in turn, X first.
     */
    lemma LayersAlternate()
      requires Valid()
      ensures forall i | 0 <= i < |stack| ::
        && stack[i].width > 0.0 && stack[i].depth > 0.0
        && stack[i].direction == (if i == 0 then None else if i % 2 == 1 then Some(X) else Some(Z))
    {
      forall i | 0 <= i < |stack|
        ensures stack[i].width > 0.0 && stack[i].depth > 0.0
        ensures stack[i].direction == (if i == 0 then None else if i % 2 == 1 then Some(X) else Some(Z))
      {
        assert LayerAt(i);
        LayerAxisParity(i);
      }
    }

    function Top(): Block
      reads this`stack
      requires |stack| >= 1
    {
      stack[|stack| - 1]
    }

    /** The state right after a (re)start: base and first layer, nothing else. */
    ghost predicate Restarted()
      reads this, stack
    {
      && |stack| == 2 && overhangs == []
      && stack[0].State() == LayerBox(0.0, 0.0, OriginalBoxSize, OriginalBoxSize, None, 0)
      && stack[1].State() == LayerBox(OffStage, 0.0, OriginalBoxSize, OriginalBoxSize, Some(X), 1)
      && bodies == stack && meshes == stack
      && !gameEnded && speed == InitialSpeed && score == 0 && level == 1 && lastTime == 0.0
    }

    /** init: the attract mode, autopilot on, with the base and the first layer. */
    constructor (precision: real)
      requires -0.5 <= precision < 0.5
      ensures Valid() && Restarted()
      ensures autopilot && robotPrecision == precision
      ensures fresh(stack[0]) && fresh(stack[1])
    {
      autopilot := true;
      gameEnded := false;
      lastTime := 0.0;
      stack := [];
      overhangs := [];
      speed := InitialSpeed;
      bodies := [];
      meshes := [];
      score := 0;
      level := 1;
      new;
      SetRobotPrecision(precision);
      AddBaseAndFirstLayer();
    }

    /**
     * setRobotPrecision, with the random draw in [-0.5, 0.5) passed in; init calls
     * it before the stack has any layer.
     */
    method SetRobotPrecision(precision: real)
      requires -0.5 <= precision < 0.5
      modifies this`robotPrecision
      ensures robotPrecision == precision
      ensures old(Valid()) ==> Valid()
      ensures |stack| >= 2 ==> State() == old(State()).(robotPrecision := precision)
    {
      robotPrecision := precision;
    }

    /** generateBox: build a block and register its body with the world and its mesh with the scene. */
    method GenerateBox(x: real, y: real, z: real, width: real, depth: real, falls: bool)
      returns (b: Block)
      modifies this`bodies, this`meshes
      ensures fresh(b) && b.State() == NewBox(x, y, z, width, depth, falls)
      ensures bodies == old(bodies) + [b] && meshes == old(meshes) + [b]
    {
      b := new Block(x, y, z, width, depth, falls);
      meshes := meshes + [b];
      bodies := bodies + [b];
    }

    /** addLayer: a fixed block one layer above the stack, pushed onto it. */
    method AddLayer(x: real, z: real, width: real, depth: real, direction: Option<Axis>)
      modifies this`stack, this`bodies, this`meshes
      ensures |stack| == old(|stack|) + 1 && stack[..old(|stack|)] == old(stack)
      ensures fresh(Top()) && Top().State() == LayerBox(x, z, width, depth, direction, old(|stack|))
      ensures bodies == old(bodies) + [Top()] && meshes == old(meshes) + [Top()]
      ensures old(Tower()) && IsLayer(LayerBox(x, z, width, depth, direction, old(|stack|)), old(|stack|)) ==> Tower()
    {
      var y := LayerY(|stack|);
      var layer := GenerateBox(x, y, z, width, depth, false);
      layer.direction := direction;
      stack := stack + [layer];

      if old(Tower()) && IsLayer(layer.State(), |stack| - 1) {
        forall i | 0 <= i < |stack|
          ensures LayerAt(i)
        {
          if i < |stack| - 1 {
            assert old(LayerAt(i)) && stack[i] == old(stack[i]) && stack[..i] == old(stack[..i]);
          }
        }
      }
    }

    /** addOverhang: a falling block at the height of the stack's top layer. */
    method AddOverhang(x: real, z: real, width: real, depth: real)
      modifies this`overhangs, this`bodies, this`meshes
      ensures |overhangs| == old(|overhangs|) + 1 && overhangs[..old(|overhangs|)] == old(overhangs)
      ensures var o := overhangs[|overhangs| - 1];
        && fresh(o)
        && o.State() == NewBox(x, BoxHeight * ((|stack| - 1) as real), z, width, depth, true)
        && bodies == old(bodies) + [o] && meshes == old(meshes) + [o]
      ensures old(Tower()) ==> Tower()
    {
      var y := BoxHeight * ((|stack| - 1) as real);
      var overhang := GenerateBox(x, y, z, width, depth, true);
      overhangs := overhangs + [overhang];

      if old(Tower()) {
        forall i | 0 <= i < |stack|
          ensures LayerAt(i)
        {
          assert old(LayerAt(i));
        }
      }
    }

    /** The two addLayer calls of init and startGame: the base, then the first layer on it. */
    method AddBaseAndFirstLayer()
      requires stack == [] && bodies == [] && meshes == []
      modifies this`stack, this`bodies, this`meshes
      ensures |stack| == 2 && bodies == stack && meshes == stack
      ensures stack[0].State() == LayerBox(0.0, 0.0, OriginalBoxSize, OriginalBoxSize, None, 0)
      ensures stack[1].State() == LayerBox(OffStage, 0.0, OriginalBoxSize, OriginalBoxSize, Some(X), 1)
      ensures fresh(stack[0]) && fresh(stack[1])
      ensures Tower()
    {
      AddLayer(0.0, 0.0, OriginalBoxSize, OriginalBoxSize, None);
      ghost var base := Top();
      AddLayer(OffStage, 0.0, OriginalBoxSize, OriginalBoxSize, Some(X));
      assert stack == [base, Top()];
    }

    /** The loops of startGame that take every body out of the world and every mesh out of the scene, first one first. */
    method ClearWorldAndScene()
      modifies this`bodies, this`meshes
      ensures bodies == [] && meshes == []
    {
      while |bodies| > 0
        modifies this`bodies
        decreases |bodies|
      {
        bodies := Remove(bodies, bodies[0]);
      }

      while |meshes| > 0
        modifies this`meshes
        decreases |meshes|
      {
        meshes := Remove(meshes, meshes[0]);
      }

    }

    /**
     * The assignments startGame opens with, and the score and level it shows: a
     * manual game, not over, at the initial speed, with no layers and no overhangs.
     */
    method ResetForManualGame()
      modifies this`autopilot, this`gameEnded, this`lastTime, this`speed, this`stack,
               this`overhangs, this`score, this`level
      ensures !autopilot && !gameEnded && lastTime == 0.0 && speed == InitialSpeed
      ensures stack == [] && overhangs == [] && score == 0 && level == 1
    {
      autopilot := false;
      gameEnded := false;
      lastTime := 0.0;
      speed := InitialSpeed;
      stack := [];
      overhangs := [];
      score := 0;
      level := 1;
    }

    /**
     * startGame: a fresh manual game; the world and the scene are emptied one
     * handle at a time and the base and the first layer are built again.
     */
    method StartGame()
      modifies this
      ensures Restarted() && !autopilot && robotPrecision == old(robotPrecision)
      ensures fresh(stack[0]) && fresh(stack[1])
      ensures -0.5 <= robotPrecision < 0.5 ==> Valid()
    {
      ResetForManualGame();
      ClearWorldAndScene();
      AddBaseAndFirstLayer();
    }

    method MissedTheSpot()
      requires |stack| >= 2
      modifies this`overhangs, this`bodies, this`meshes, this`gameEnded
      ensures Missed(old(State()), State()) && State().top == old(State()).top
      ensures |overhangs| == old(|overhangs|) + 1 && fresh(overhangs[|overhangs| - 1])
      ensures old(Tower()) ==> Tower()
    {
      var top := Top();
      AddOverhang(top.renderPos.x, top.renderPos.z, top.width, top.depth);
      assert overhangs[|overhangs| - 1].State() == DroppedCopy(top.State(), |stack| - 1);
      ghost var added := State();
      RemoveTop();
      assert State() == added.(bodies := bodies, meshes := meshes, gameEnded := true);
    }

    /** The moving layer leaves the world and the scene, and the game is over. */
    method RemoveTop()
      requires |stack| >= 1
      modifies this`bodies, this`meshes, this`gameEnded
      ensures bodies == Remove(old(bodies), Top()) && meshes == Remove(old(meshes), Top())
      ensures gameEnded
    {
      bodies := Remove(bodies, Top());
      meshes := Remove(meshes, Top());
      gameEnded := true;
    }

    /**
     * The overhang splitBlockAndAddNextOneIfOverlaps adds once the moving layer has
     * been cut, measured as `m`: the CutOverhang of the cut layer.
     */
    method AddCutOverhang(direction: Axis, m: Measure)
      requires |stack| >= 1 && Top().direction == Some(direction)
      modifies this`overhangs, this`bodies, this`meshes
      ensures |overhangs| == old(|overhangs|) + 1 && overhangs[..old(|overhangs|)] == old(overhangs)
      ensures var o := overhangs[|overhangs| - 1];
        && fresh(o) && o.State() == CutOverhang(Top().State(), m, |stack| - 1)
        && bodies == old(bodies) + [o] && meshes == old(meshes) + [o]
      ensures old(Tower()) ==> Tower()
    {
      var top := Top();
      // the overhang is placed from the cut layer's new centre
      var overhangShift := (m.overlap / 2.0 + m.overhangSize / 2.0) * Sign(m.delta);
      var overhangX := if direction == X then top.renderPos.x + overhangShift else top.renderPos.x;
      var overhangZ := if direction == Z then top.renderPos.z + overhangShift else top.renderPos.z;
      var overhangWidth := if direction == X then m.overhangSize else top.width;
      var overhangDepth := if direction == Z then m.overhangSize else top.depth;
      assert CutOverhang(top.State(), m, |stack| - 1)
        == NewBox(overhangX, LayerY(|stack| - 1), overhangZ, overhangWidth, overhangDepth, true);
      AddOverhang(overhangX, overhangZ, overhangWidth, overhangDepth);
    }

    /**
     * The score, level and speed update of splitBlockAndAddNextOneIfOverlaps: the
     * score becomes the number of cuts with this one, and every tenth cut raises
     * the level and the speed, so they stay where the score puts them.
     */
    method CountCut()
      requires |stack| >= 2 && score == |stack| - 2
      requires level == LevelAfter(score) && speed == SpeedAfter(score)
      modifies this`score, this`level, this`speed
      ensures score == |stack| - 1 && level == LevelAfter(score) && speed == SpeedAfter(score)
      ensures level == old(level) + (if score % 10 == 0 then 1 else 0)
      ensures speed == old(speed) + (if score % 10 == 0 then SpeedIncrement else 0.0)
    {
      score := |stack| - 1;
      if (|stack| - 1) % 10 == 0 {
        speed := speed + SpeedIncrement;
        level := level + 1;
      }
    }

    /** The end of splitBlockAndAddNextOneIfOverlaps: CountCut, then the next layer. */
    method CountCutAndAddLayer(x: real, z: real, width: real, depth: real, direction: Option<Axis>)
      requires |stack| >= 2 && score == |stack| - 2
      requires level == LevelAfter(score) && speed == SpeedAfter(score)
      modifies this`stack, this`bodies, this`meshes, this`score, this`level, this`speed
      ensures |stack| == old(|stack|) + 1 && stack[..old(|stack|)] == old(stack)
      ensures fresh(Top()) && Top().State() == LayerBox(x, z, width, depth, direction, old(|stack|))
      ensures bodies == old(bodies) + [Top()] && meshes == old(meshes) + [Top()]
      ensures score == old(|stack|) - 1
      ensures level == old(level) + (if score % 10 == 0 then 1 else 0)
      ensures speed == old(speed) + (if score % 10 == 0 then SpeedIncrement else 0.0)
      ensures old(Tower()) && IsLayer(LayerBox(x, z, width, depth, direction, old(|stack|)), old(|stack|)) ==> Tower()
    {
      CountCut();
      AddLayer(x, z, width, depth, direction);
    }

    /**
     * The part of splitBlockAndAddNextOneIfOverlaps after the cut of the moving
     * layer, measured as `m`: the overhang, the counters, the next layer. `s` is
     * the game before the cut, which left its lists and counters as they were.
     */
    method AddOverhangAndNextLayer(direction: Axis, m: Measure, ghost s: GameState, ghost cut: BoxState)
      requires |stack| >= 2 && Top().State() == cut && IsLayer(cut, |stack| - 1) && cut.direction == Some(direction)
      requires score == |stack| - 2 && level == LevelAfter(score) && speed == SpeedAfter(score)
      requires s.stack == stack && s.overhangs == overhangs && s.bodies == bodies && s.meshes == meshes
      requires s.gameEnded == gameEnded && s.speed == speed && s.level == level
      modifies this`stack, this`overhangs, this`bodies, this`meshes, this`speed, this`score, this`level
      ensures |stack| == old(|stack|) + 1 && StackedOn(s, cut, m, State())
      ensures fresh(Top()) && fresh(overhangs[|overhangs| - 1])
      ensures old(Tower()) ==> Tower()
    {
      var top := Top();
      NextLayerRests(top.State(), |stack|);

      AddCutOverhang(direction, m);
      ghost var overhang := overhangs[|overhangs| - 1];
      assert fresh(overhang) && overhang.State() == CutOverhang(cut, m, |stack| - 1);

      var nextX := if direction == X then top.renderPos.x else OffStage;
      var nextZ := if direction == Z then top.renderPos.z else OffStage;
      var newWidth := top.width;
      var newDepth := top.depth;
      var nextDirection := if direction == X then Z else X;

      assert LayerBox(nextX, nextZ, newWidth, newDepth, Some(nextDirection), |stack|) == NextLayer(cut, |stack|);
      CountCutAndAddLayer(nextX, nextZ, newWidth, newDepth, Some(nextDirection));
      assert overhangs[|overhangs| - 1] == overhang;
    }

    /** The cutBox call of splitBlockAndAddNextOneIfOverlaps: the moving layer is cut and stays a layer. */
    method CutTop(overlap: real, size: real, delta: real)
      requires |stack| >= 2 && Tower() && Top().direction.Some? && size != 0.0 && overlap > 0.0
      modifies Top()
      ensures State() == old(State()).(top := CutBox(old(State()).top, overlap, size, delta))
      ensures Tower()
    {
      var top := Top();
      assert LayerAt(|stack| - 1);
      CutStaysLayer(top.State(), |stack| - 1, overlap, size, delta);
      top.Cut(overlap, size, delta);
      forall i | 0 <= i < |stack|
        ensures LayerAt(i)
      {
        if i < |stack| - 1 {
          assert old(LayerAt(i)) && stack[i] in stack[..|stack| - 1];
          assert stack[i].State() == old(stack[i].State());
        }
      }
    }

    /** The moving step of animation on the moving layer: mesh and body move by `step` along its axis. */
    method ShiftTop(step: real)
      requires Valid()
      modifies Top()
      ensures State() == old(State()).(top := Moved(old(State()).top, old(State()).top.direction.value, step))
      ensures Tower()
    {
      var top := Top();
      var direction := top.direction.value;
      assert LayerAt(|stack| - 1);
      MovedStaysLayer(top.State(), stack[|stack| - 2].State(), |stack| - 1, step);
      top.renderPos := Shift(top.renderPos, direction, step);
      top.bodyPos := Shift(top.bodyPos, direction, step);
      forall i | 0 <= i < |stack|
        ensures LayerAt(i)
      {
        if i < |stack| - 1 {
          assert old(LayerAt(i)) && stack[i] in stack[..|stack| - 1];
          assert stack[i].State() == old(stack[i].State());
        }
      }
    }

    /**
     * The cut branch of splitBlockAndAddNextOneIfOverlaps: the moving layer, of
     * extent `size` along its axis and measured as `m`, is cut, and the overhang,
     * the counters and the next layer follow.
     */
    method CutAndStack(size: real, m: Measure)
      requires Valid() && m == MeasureOf(State().top, State().prev) && m.overlap > 0.0
      requires size == State().top.Along(State().top.direction.value).length
      modifies this`stack, this`overhangs, this`bodies, this`meshes,
               this`speed, this`score, this`level, Top()
      ensures Valid() && CutDone(old(State()), State())
      ensures fresh(Top()) && fresh(overhangs[|overhangs| - 1])
    {
      var direction := Top().direction.value;
      ghost var before := State();
      ghost var cut := CutBox(before.top, m.overlap, size, m.delta);
      CutTop(m.overlap, size, m.delta);
      AddOverhangAndNextLayer(direction, m, before, cut);
      CutDoneConsistent(before, State());
    }

    /** splitBlockAndAddNextOneIfOverlaps: the cut, or a miss when nothing rests on the layer below. */
    method SplitBlockAndAddNextOneIfOverlaps()
      requires Valid()
      modifies this`stack, this`overhangs, this`bodies, this`meshes, this`gameEnded,
               this`speed, this`score, this`level, Top()
      ensures Valid() && SplitDone(old(State()), State())
      ensures |stack| > old(|stack|) ==> fresh(Top())
      ensures |overhangs| > old(|overhangs|) ==> fresh(overhangs[|overhangs| - 1])
    {
      if gameEnded {
        return;
      }

      var top := Top();
      var prev := stack[|stack| - 2];
      var direction := top.direction.value;

      var size := Extent(top.width, top.depth, direction);
      var delta := Coord(top.renderPos, direction) - Coord(prev.renderPos, direction);
      var overhangSize := Abs(delta);
      var overlap := size - overhangSize;

      if overlap > 0.0 {
        CutAndStack(size, Measure(delta, overhangSize, overlap));
      } else {
        ghost var before := State();
        MissedTheSpot();
        SplitConsistent(before, State());
      }
    }

    /** eventHandler: a click, a touch or the space bar. */
    method EventHandler()
      requires Valid()
      modifies this, Top()
      ensures Valid()
      ensures old(autopilot) ==>
        Restarted() && !autopilot && fresh(stack[0]) && fresh(stack[1])
        && robotPrecision == old(robotPrecision)
      ensures !old(autopilot) ==>
        && !autopilot && robotPrecision == old(robotPrecision) && lastTime == old(lastTime)
        && SplitDone(old(State()), State())
      ensures |stack| > old(|stack|) ==> fresh(Top())
      ensures |overhangs| > old(|overhangs|) ==> fresh(overhangs[|overhangs| - 1])
    {
      if autopilot {
        StartGame();
      } else {
        SplitBlockAndAddNextOneIfOverlaps();
      }
    }

    /**
     * The moving step of animation: the moving layer, mesh and body alike, moves by
     * `step` along its axis and is still the same layer; past PlayBound it is a miss.
     */
    method MoveTop(step: real)
      requires Valid()
      modifies this`overhangs, this`bodies, this`meshes, this`gameEnded, Top()
      ensures Valid() && MovedOn(old(State()), State(), step)
      ensures |overhangs| > old(|overhangs|) ==> fresh(overhangs[|overhangs| - 1])
    {
      var top := Top();
      var direction := top.direction.value;
      ghost var before := State();
      ShiftTop(step);
      ghost var moved := State();

      if Coord(top.renderPos, direction) > PlayBound {
        MissedTheSpot();
        MissedFrom(before, moved.top, moved.lastOverhang, State());
      }
      MovedConsistent(before, State(), step);
    }

    /** The autopilot's turn in animation: cut where it stopped, then draw a new precision. */
    method AutopilotCut(nextPrecision: real)
      requires Valid() && -0.5 <= nextPrecision < 0.5
      modifies this`stack, this`overhangs, this`bodies, this`meshes, this`gameEnded,
               this`speed, this`score, this`level, this`robotPrecision, Top()
      ensures Valid() && State().robotPrecision == nextPrecision && SplitDone(old(State()), State())
      ensures |stack| > old(|stack|) ==> fresh(Top())
      ensures |overhangs| > old(|overhangs|) ==> fresh(overhangs[|overhangs| - 1])
    {
      ghost var before := State();
      SplitBlockAndAddNextOneIfOverlaps();
      SplitIgnoresPrecision(before, State(), nextPrecision);
      SetRobotPrecision(nextPrecision);
    }

    /**
     * The game logic of an animation frame after the first, `timePassed` after the
     * previous one: move the moving layer by speed * timePassed while it should
     * move, or let the autopilot cut.
     */
    method AdvanceFrame(timePassed: real, nextPrecision: real)
      requires Valid() && -0.5 <= nextPrecision < 0.5
      modifies this`stack, this`overhangs, this`bodies, this`meshes, this`gameEnded,
               this`speed, this`score, this`level, this`robotPrecision, Top()
      ensures Valid() && Animated(old(State()), State(), timePassed, nextPrecision)
      ensures |stack| > old(|stack|) ==> fresh(Top())
      ensures |overhangs| > old(|overhangs|) ==> fresh(overhangs[|overhangs| - 1])
    {
      var top := stack[|stack| - 1];
      var prev := stack[|stack| - 2];
      var direction := top.direction.value;

      var boxShouldMove :=
        !gameEnded &&
        (!autopilot ||
          (autopilot && Coord(top.renderPos, direction) < Coord(prev.renderPos, direction) + robotPrecision));

      assert boxShouldMove == BoxShouldMove(State());
      if boxShouldMove {
        MoveTop(speed * timePassed);
      } else {
        if autopilot {
          AutopilotCut(nextPrecision);
        }
      }
    }

    /**
     * The game-logic part of one animation frame at time stamp `time`: the first
     * frame only records the time; later ones are an AdvanceFrame by the time
     * passed since the previous one.
     */
    method Animation(time: real, nextPrecision: real)
      requires Valid() && -0.5 <= nextPrecision < 0.5
      modifies this`stack, this`overhangs, this`bodies, this`meshes, this`gameEnded,
               this`speed, this`score, this`level, this`robotPrecision, this`lastTime, Top()
      ensures Valid() && lastTime == time
      ensures old(lastTime) == 0.0 ==> State() == old(State())
      ensures old(lastTime) != 0.0 ==> Animated(old(State()), State(), time - old(lastTime), nextPrecision)
      ensures |stack| > old(|stack|) ==> fresh(Top())
      ensures |overhangs| > old(|overhangs|) ==> fresh(overhangs[|overhangs| - 1])
    {
      // the time stamp is recorded first: nothing the frame does reads it
      var previous := lastTime;
      ghost var before := State();
      lastTime := time;
      assert State() == before;
      if previous != 0.0 {
        var timePassed := time - previous;
        AdvanceFrame(timePassed, nextPrecision);
      }
    }
  }
}
