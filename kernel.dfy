/**
 * The escape-time kernel (msetPoint_*), its batch wrapper (msetBatch_*) and the
 * path tracer (msetPath_*). The recurrence is z0 = 0, z(n+1) = z(n)^2 + c; the
 * loop stops when |z|^2 >= 4 or when the counter reaches maxIterations.
 */
module Kernel {
  import opened ComplexNumbers
  import opened Grid

  /** maxMagnitude: the escape test compares the SQUARED modulus with 4 (radius 2). */
  const MaxMagnitude: real := 4.0

  /** iterPair_*: the half-open index range [lo, hi) of one batch of points. */
  datatype Range = Range(lo: nat, hi: nat)

  /** The n-th value of z for the point c. */
  function Orbit(c: Complex, n: nat): Complex
  {
    if n == 0 then Zero else Add(Squared(Orbit(c, n - 1)), c)
  }

  /** z has left the disc of radius 2 after n steps. */
  predicate Escaped(c: Complex, n: nat)
  {
    Magnitude(Orbit(c, n)) >= MaxMagnitude
  }

  /** The value of iterationCounter when the kernel's loop stops, if it is at k now. */
  function LoopExit(c: Complex, maxIterations: int, k: nat): (n: nat)
    decreases maxIterations - k
    ensures k <= n && (k <= maxIterations ==> n <= maxIterations)
  {
    if Magnitude(Orbit(c, k)) < MaxMagnitude && k < maxIterations
    then LoopExit(c, maxIterations, k + 1)
    else k
  }

  /** What msetPoint stores: the counter if the loop stopped before the bound, else 0. */
  function EscapeIterations(c: Complex, maxIterations: int): (n: int)
    ensures n == 0 || 0 < n < maxIterations
  {
    var n := LoopExit(c, maxIterations, 0);
    if n < maxIterations then n else 0
  }

  /** The loop's exit counter, followed on the current value z rather than on the orbit. */
  function Run(z: Complex, c: Complex, k: nat, maxIterations: int): (n: nat)
    decreases maxIterations - k
    ensures k <= n && (k <= maxIterations ==> n <= maxIterations)
  {
    if Magnitude(z) < MaxMagnitude && k < maxIterations
    then Run(Add(Squared(z), c), c, k + 1, maxIterations)
    else k
  }

  /** Following the current value gives the same exit counter as following the orbit. */
  lemma {:induction false} RunIsLoopExit(c: Complex, maxIterations: int, k: nat)
    ensures Run(Orbit(c, k), c, k, maxIterations) == LoopExit(c, maxIterations, k)
    decreases maxIterations - k
  {
    if Magnitude(Orbit(c, k)) < MaxMagnitude && k < maxIterations {
      RunIsLoopExit(c, maxIterations, k + 1);
    }
  }

  /** The loop stops at the first escaped step at or after k, or at the bound. */
  lemma {:induction false} LoopExitIsFirstEscape(c: Complex, maxIterations: int, k: nat)
    ensures k <= LoopExit(c, maxIterations, k)
    ensures k < maxIterations ==> LoopExit(c, maxIterations, k) <= maxIterations
    ensures k >= maxIterations ==> LoopExit(c, maxIterations, k) == k
    ensures forall j :: k <= j < LoopExit(c, maxIterations, k) ==> !Escaped(c, j)
    ensures LoopExit(c, maxIterations, k) < maxIterations ==> Escaped(c, LoopExit(c, maxIterations, k))
    decreases maxIterations - k
  {
    if Magnitude(Orbit(c, k)) < MaxMagnitude && k < maxIterations {
      LoopExitIsFirstEscape(c, maxIterations, k + 1);
    }
  }

  /** z0 = 0 never counts as escaped, so the loop always takes a first step. */
  lemma StartNotEscaped(c: Complex)
    ensures !Escaped(c, 0)
  {
    assert Orbit(c, 0) == Zero;
  }

  /** The first step from z0 = 0 lands on c itself. */
  lemma FirstStep(c: Complex)
    ensures Orbit(c, 1) == c
  {
    assert Orbit(c, 0) == Zero;
    assert Squared(Zero) == Zero;
  }

  /** The stored count, characterised by the orbit alone: 0 exactly when no step
      before the bound escaped; otherwise the first escaping step, in [1, maxIterations-1]. */
  lemma EscapeCharacterization(c: Complex, maxIterations: int)
    ensures EscapeIterations(c, maxIterations) == 0
        <==> forall j :: 0 <= j < maxIterations ==> !Escaped(c, j)
    ensures EscapeIterations(c, maxIterations) != 0 ==>
              && 1 <= EscapeIterations(c, maxIterations) < maxIterations
              && Escaped(c, EscapeIterations(c, maxIterations))
              && forall j :: 0 <= j < EscapeIterations(c, maxIterations) ==> !Escaped(c, j)
  {
    LoopExitIsFirstEscape(c, maxIterations, 0);
    StartNotEscaped(c);
    var n := LoopExit(c, maxIterations, 0);
    if n < maxIterations {
      assert n != 0;
      assert Escaped(c, n);
    }
  }

  /** How many steps the loop takes, in terms of the stored count: exactly the count
      when the point escaped, exactly the bound when it did not. */
  lemma StepsVersusCount(c: Complex, maxIterations: int)
    ensures LoopExit(c, maxIterations, 0) <= maxIterations || LoopExit(c, maxIterations, 0) == 0
    ensures EscapeIterations(c, maxIterations) != 0 ==>
              LoopExit(c, maxIterations, 0) == EscapeIterations(c, maxIterations)
    ensures EscapeIterations(c, maxIterations) == 0 && maxIterations >= 0 ==>
              LoopExit(c, maxIterations, 0) == maxIterations
  {
    LoopExitIsFirstEscape(c, maxIterations, 0);
    StartNotEscaped(c);
  }

  /** Raising the bound cannot change a nonzero count: an escaping point escapes at
      the same step under every larger bound. */
  lemma EscapeMonotone(c: Complex, m1: int, m2: int)
    requires m1 <= m2
    ensures EscapeIterations(c, m1) != 0 ==> EscapeIterations(c, m2) == EscapeIterations(c, m1)
    ensures EscapeIterations(c, m2) == 0 ==> EscapeIterations(c, m1) == 0
  {
    EscapeCharacterization(c, m1);
    EscapeCharacterization(c, m2);
    var r1, r2 := EscapeIterations(c, m1), EscapeIterations(c, m2);
    if r1 != 0 {
      assert r2 != 0 by {
        assert 0 <= r1 < m2 && Escaped(c, r1);
      }
    }
  }

  lemma {:induction false} OriginOrbit(n: nat)
    ensures Orbit(Zero, n) == Zero
  {
    if n > 0 {
      OriginOrbit(n - 1);
    }
  }

  /** The origin never escapes: it is stored as 0 under every bound (the sentinel case). */
  lemma OriginNeverEscapes(maxIterations: int)
    ensures EscapeIterations(Zero, maxIterations) == 0
  {
    EscapeCharacterization(Zero, maxIterations);
    forall j | 0 <= j < maxIterations
      ensures !Escaped(Zero, j)
    {
      OriginOrbit(j);
    }
  }

  /** A point already outside radius 2 escapes at the first step: z1 = c. It is stored
      as 1 under every bound above 1. */
  lemma {:induction false} EscapesAtFirstStep(c: Complex, maxIterations: int)
    requires Magnitude(c) >= MaxMagnitude && maxIterations >= 2
    ensures EscapeIterations(c, maxIterations) == 1
  {
    FirstStep(c);
    StartNotEscaped(c);
    assert LoopExit(c, maxIterations, 1) == 1;
    assert LoopExit(c, maxIterations, 0) == 1;
  }

  /** The initial view's cell (0, 512) is c = -2: |z1|^2 = 4 already counts as escaped
      (the test is |z|^2 < 4), so its count is 1, for the initial bound 100 and every bound above 1. */
  lemma LeftTipEscapesAtOne(maxIterations: int)
    requires maxIterations >= 2
    ensures EscapeIterations(Complex(-2.0, 0.0), maxIterations) == 1
  {
    EscapesAtFirstStep(Complex(-2.0, 0.0), maxIterations);
  }

  /** The point with its iterations field set as msetPoint sets it. */
  function Computed(p: Point, maxIterations: int): Point
  {
    p.(iterations := EscapeIterations(p.coord, maxIterations))
  }

  /** msetPoint_*: run the bounded loop for one point and write its count in place. */
  method MsetPoint(points: array<Point>, i: nat, maxIterations: int)
    requires i < points.Length
    modifies points
    ensures points[..] == old(points[..])[i := Computed(old(points[i]), maxIterations)]
  {
    var c := points[i].coord;
    var z := Zero;
    RunIsLoopExit(c, maxIterations, 0);
    var iterationCounter := 0;
    while Magnitude(z) < MaxMagnitude && iterationCounter < maxIterations
      invariant 0 <= iterationCounter
      invariant z == Orbit(c, iterationCounter)
      invariant Run(z, c, iterationCounter, maxIterations) == LoopExit(c, maxIterations, 0)
      invariant unchanged(points)
      decreases maxIterations - iterationCounter
    {
      z := Add(Squared(z), c);
      iterationCounter := iterationCounter + 1;
    }
    assert EscapeIterations(c, maxIterations) == if iterationCounter < maxIterations then iterationCounter else 0;
    if iterationCounter < maxIterations {
      points[i] := points[i].(iterations := iterationCounter);
      return;
    }
    points[i] := points[i].(iterations := 0);
  }

  /** The point array after every point of r has been run through msetPoint. */
  function ComputeRange(s: seq<Point>, r: Range, maxIterations: int): (t: seq<Point>)
    ensures |t| == |s|
  {
    seq(|s|, i requires 0 <= i < |s| => if r.lo <= i < r.hi then Computed(s[i], maxIterations) else s[i])
  }

  /** msetBatch_*: run msetPoint over [lo, hi) in order, and hand the range back so
      that the caller knows which points were finished. */
  method MsetBatch(points: array<Point>, vit: Range, maxIterations: int) returns (r: Range)
    requires vit.lo <= vit.hi <= points.Length
    modifies points
    ensures r == vit
    ensures points[..] == ComputeRange(old(points[..]), vit, maxIterations)
  {
    var it := vit.lo;
    while it != vit.hi
      invariant vit.lo <= it <= vit.hi
      invariant points[..] == ComputeRange(old(points[..]), Range(vit.lo, it), maxIterations)
      decreases vit.hi - it
    {
      MsetPoint(points, it, maxIterations);
      it := it + 1;
    }
    r := vit;
  }

  /** Only iteration counts change, and only inside r, where each becomes the escape count
      of the point's own value c; every point keeps its cell and its value c. */
  lemma ComputeRangeKeepsCells(s: seq<Point>, r: Range, maxIterations: int)
    ensures forall i :: 0 <= i < |s| ==>
              && ComputeRange(s, r, maxIterations)[i].coord == s[i].coord
              && ComputeRange(s, r, maxIterations)[i].gridPos == s[i].gridPos
              && (r.lo <= i < r.hi ==>
                    ComputeRange(s, r, maxIterations)[i].iterations == EscapeIterations(s[i].coord, maxIterations))
              && (!(r.lo <= i < r.hi) ==> ComputeRange(s, r, maxIterations)[i] == s[i])
  {
  }

  /** Computing [a, b) and then [b, c) is computing [a, c): how the range is cut into
      batches does not change the result. */
  lemma ComputeRangeSplit(s: seq<Point>, a: nat, b: nat, c: nat, maxIterations: int)
    requires a <= b <= c
    ensures ComputeRange(ComputeRange(s, Range(a, b), maxIterations), Range(b, c), maxIterations)
         == ComputeRange(s, Range(a, c), maxIterations)
  {
    var lhs := ComputeRange(ComputeRange(s, Range(a, b), maxIterations), Range(b, c), maxIterations);
    assert forall i :: 0 <= i < |s| ==> lhs[i] == ComputeRange(s, Range(a, c), maxIterations)[i];
  }

  /** Batches that finish in either order give the same array. */
  lemma ComputeRangeCommute(s: seq<Point>, r1: Range, r2: Range, m1: int, m2: int)
    requires r1.hi <= r2.lo || r2.hi <= r1.lo
    ensures ComputeRange(ComputeRange(s, r1, m1), r2, m2) == ComputeRange(ComputeRange(s, r2, m2), r1, m1)
  {
    var lhs := ComputeRange(ComputeRange(s, r1, m1), r2, m2);
    var rhs := ComputeRange(ComputeRange(s, r2, m2), r1, m1);
    assert forall i :: 0 <= i < |s| ==> lhs[i] == rhs[i];
  }

  /** Computing the same batch twice with the same bound is computing it once. */
  lemma ComputeRangeIdempotent(s: seq<Point>, r: Range, maxIterations: int)
    ensures ComputeRange(ComputeRange(s, r, maxIterations), r, maxIterations)
         == ComputeRange(s, r, maxIterations)
  {
    var once := ComputeRange(s, r, maxIterations);
    assert forall i :: 0 <= i < |s| ==> ComputeRange(once, r, maxIterations)[i] == once[i];
  }

  /** The cells the tracer records for c: z1, ..., zn, each projected by Coord2Grid. */
  function Path(c: Complex, n: nat): (p: seq<GridPos>)
    ensures |p| == n
  {
    if n == 0 then [] else Path(c, n - 1) + [Coord2Grid(Orbit(c, n))]
  }

  /** The k-th recorded cell is the projection of z(k+1). */
  lemma {:induction false} PathElements(c: Complex, n: nat)
    ensures forall k :: 0 <= k < n ==> Path(c, n)[k] == Coord2Grid(Orbit(c, k + 1))
  {
    if n > 0 {
      PathElements(c, n - 1);
    }
  }

  /** msetPath_*: the same loop, recording the screen cell of z after every step. */
  method MsetPath(c: Complex, maxIterations: int) returns (points: seq<GridPos>)
    ensures forall k :: 0 <= k < |points| ==> points[k] == Coord2Grid(Orbit(c, k + 1))
    ensures |points| <= maxIterations || points == []
    ensures EscapeIterations(c, maxIterations) != 0 ==> |points| == EscapeIterations(c, maxIterations)
    ensures EscapeIterations(c, maxIterations) == 0 && maxIterations >= 0 ==> |points| == maxIterations
  {
    var z := Zero;
    RunIsLoopExit(c, maxIterations, 0);
    points := [];
    var iterationCounter := 0;
    while Magnitude(z) < MaxMagnitude && iterationCounter < maxIterations
      invariant 0 <= iterationCounter
      invariant z == Orbit(c, iterationCounter)
      invariant points == Path(c, iterationCounter)
      invariant Run(z, c, iterationCounter, maxIterations) == LoopExit(c, maxIterations, 0)
      decreases maxIterations - iterationCounter
    {
      z := Add(Squared(z), c);
      iterationCounter := iterationCounter + 1;
      points := points + [Coord2Grid(z)];
    }
    PathElements(c, iterationCounter);
    StepsVersusCount(c, maxIterations);
  }
}
