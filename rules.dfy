/**
 * The pure rules behind the game loop: the overlap test that decides between a
 * cut and a miss, the two pieces a cut leaves, the level and speed reached
 * after a number of cuts, and the removal of a handle from the world's or the
 * scene's list.
 */
module Rules {
  import opened Geometry

  /** Where a new layer starts along the axis it will move on. */
  const OffStage: real := -10.0
  /** A moving layer that gets past this coordinate is a miss. */
  const PlayBound: real := 10.0
  const InitialSpeed: real := 0.008
  const SpeedIncrement: real := 0.001

  /**
   * The axis of stack layer `i`: each layer takes the other axis than the one
   * below it, and the first layer moves along X (the base, layer 0, does not move).
   */
  function LayerAxis(i: nat): Axis
  {
    if i == 0 then Z else Opposite(LayerAxis(i - 1))
  }

  /** So the layers move along X, Z, X, Z, ... from layer 1 on: odd layers along X. */
  lemma {:induction false} LayerAxisParity(i: nat)
    ensures LayerAxis(i) == if i % 2 == 1 then X else Z
  {
    if i > 0 {
      LayerAxisParity(i - 1);
    }
  }

  /**
   * The overlap test. `delta` is how far the moving block's centre is past the
   * previous block's, `overhangSize` how much of its extent hangs over, `overlap`
   * how much rests on the block below.
   */
  datatype Measure = Measure(delta: real, overhangSize: real, overlap: real)

  /**
   * Measuring a moving block of extent `size` at `topPos` against the previous
   * block at `prevPos`. The overlap is the length of what the two footprints,
   * both of extent `size`, have in common, and it is positive exactly when they
   * properly intersect.
   */
  function MeasureOverlap(size: real, topPos: real, prevPos: real): (m: Measure)
    ensures m.delta == topPos - prevPos
    ensures m.overhangSize >= 0.0 && (m.overhangSize == 0.0 <==> topPos == prevPos)
    ensures m.overlap + m.overhangSize == size
    ensures m.overlap == Common(Span(topPos, size), Span(prevPos, size))
    ensures m.overlap > 0.0 <==> prevPos - size < topPos < prevPos + size
  {
    var delta := topPos - prevPos;
    var overhangSize := Abs(delta);
    Measure(delta, overhangSize, size - overhangSize)
  }

  /**
   * The two pieces a successful cut leaves along the moving axis: the survivor,
   * recentred by -delta/2 and shrunk to the overlap, and the overhang, placed
   * from the survivor's NEW centre by (overlap/2 + overhangSize/2) * sign(delta).
   * The survivor is exactly the part resting on the previous block; survivor and
   * overhang abut and together cover the block before the cut; the overhang is
   * on the side the block overshot and rests on nothing.
   */
  function CutPieces(top: Span, prevPos: real): (r: (Span, Span))
    requires MeasureOverlap(top.length, top.center, prevPos).overlap > 0.0
    ensures var prev := Span(prevPos, top.length);
      && r.0.Lo() == Max(top.Lo(), prev.Lo()) && r.0.Hi() == Min(top.Hi(), prev.Hi())
      && r.0.center == (top.center + prevPos) / 2.0
      && r.0.length > 0.0 && r.1.length >= 0.0
      && r.0.length + r.1.length == top.length
    ensures Min(r.0.Lo(), r.1.Lo()) == top.Lo() && Max(r.0.Hi(), r.1.Hi()) == top.Hi()
    ensures top.center > prevPos ==> r.1.Lo() == r.0.Hi() && r.1.Hi() == top.Hi()
    ensures top.center < prevPos ==> r.1.Hi() == r.0.Lo() && r.1.Lo() == top.Lo()
    ensures top.center == prevPos ==> r.0 == top && r.1 == Span(top.center, 0.0)
    ensures r.1.length > 0.0 ==>
      r.1.Lo() >= prevPos + top.length / 2.0 || r.1.Hi() <= prevPos - top.length / 2.0
  {
    var m := MeasureOverlap(top.length, top.center, prevPos);
    var survivor := Span(top.center - m.delta / 2.0, m.overlap);
    var shift := (m.overlap / 2.0 + m.overhangSize / 2.0) * Sign(m.delta);
    (survivor, Span(survivor.center + shift, m.overhangSize))
  }

  /**
   * The level reached after `score` cuts of a fresh game (which starts at level 1):
   * each cut whose score is a multiple of 10 raises it by one.
   */
  function LevelAfter(score: nat): nat
  {
    if score == 0 then 1 else LevelAfter(score - 1) + (if score % 10 == 0 then 1 else 0)
  }

  /** The speed reached after `score` cuts of a fresh game, by the same rule as LevelAfter. */
  function SpeedAfter(score: nat): real
  {
    if score == 0 then InitialSpeed
    else SpeedAfter(score - 1) + (if score % 10 == 0 then SpeedIncrement else 0.0)
  }

  /** Level and speed go up once per ten cuts: after `score` cuts, by score / 10 steps each. */
  lemma {:induction false} ProgressAfter(score: nat)
    ensures LevelAfter(score) == 1 + score / 10
    ensures SpeedAfter(score) == InitialSpeed + SpeedIncrement * ((score / 10) as real)
  {
    if score > 0 {
      ProgressAfter(score - 1);
      assert score / 10 == (score - 1) / 10 + (if score % 10 == 0 then 1 else 0);
    }
  }

  /**
   * Removing a handle from the world's bodies or the scene's children: the list
   * loses one element when it holds `x`, none otherwise. RemoveOne says which.
   */
  function Remove<T(==)>(s: seq<T>, x: T): (r: seq<T>)
    ensures |r| == if x in s then |s| - 1 else |s|
  {
    if s == [] then []
    else
      assert s == [s[0]] + s[1..];
      if s[0] == x then s[1..] else [s[0]] + Remove(s[1..], x)
  }

  /**
   * Remove takes out exactly one occurrence of `x` when there is one, and leaves a
   * list without `x` as it is.
   */
  lemma {:induction false} RemoveOne<T>(s: seq<T>, x: T)
    ensures x !in s ==> Remove(s, x) == s
    ensures multiset(Remove(s, x)) == multiset(s) - multiset{x}
  {
    if s != [] {
      assert s == [s[0]] + s[1..];
      if s[0] != x {
        RemoveOne(s[1..], x);
      }
    }
  }
}
