/**
 * The key actions that change the two view parameters: the zoom power
 * zoomDenomPower (an unsigned 32-bit int; one cell is 1/2^zoomDenomPower wide)
 * and the iteration bound maxIterations (a signed int). Zoom actions request a
 * full recalculation, iteration actions a recalculation of the same points.
 */
module Controls {

  /** 2^32: unsigned int arithmetic wraps modulo this. */
  const U32: int := 0x1_0000_0000

  /** Adding to a counter that has already wrapped is adding and then wrapping. */
  lemma ModAddStep(a: int, b: int)
    ensures ((a % U32) + b) % U32 == (a + b) % U32
  {
    var q := a / U32;
    assert a == U32 * q + a % U32;
    assert (a + b) == (a % U32 + b) + U32 * q;
  }

  /** Subtracting a wrapped value is subtracting and then wrapping. */
  lemma ModSubStep(a: int, b: int)
    ensures (a - b % U32) % U32 == (a - b) % U32
  {
    var q := b / U32;
    assert b == U32 * q + b % U32;
    assert a - b % U32 == (a - b) + U32 * q;
  }

  /** The lowest zoom power a zoom-out leaves. */
  const MinZoom: int := 6
  /** The lowest iteration bound a decrement leaves. */
  const MinIterations: int := 2

  /** The parameter keys: '.', ';', ',' for the zoom power; M, N, K, J, O, Shift+O, I,
      Shift+I for the iteration bound. */
  datatype Action =
    | ZoomIn          // '.'
    | ZoomInFast      // ';'
    | ZoomOut         // ','
    | IterInc         // M
    | IterDec         // N
    | IterIncTen      // K
    | IterDecTen      // J
    | IterIncHundred  // O
    | IterNextThousand  // Shift+O
    | IterDecHundred  // I
    | IterPrevThousand  // Shift+I

  predicate IsZoomAction(a: Action)
  {
    a == ZoomIn || a == ZoomInFast || a == ZoomOut
  }

  /** C's integer division, which truncates toward zero (Dafny's / is Euclidean). */
  function CDiv(a: int, b: int): (q: int)
    requires b > 0
    ensures a >= 0 ==> q * b <= a < (q + 1) * b
    ensures a < 0 ==> (q - 1) * b < a <= q * b
  {
    if a >= 0 then a / b else -((-a) / b)
  }

  /** The new zoom power: ++ and += 3 wrap like any unsigned int; -- wraps too,
      and the result is then raised to 6 when it is below 6. */
  function ZoomAfter(a: Action, zoom: int): (z: int)
    requires IsZoomAction(a)
    ensures 0 <= z < U32
  {
    match a
    case ZoomIn => (zoom + 1) % U32
    case ZoomInFast => (zoom + 3) % U32
    case ZoomOut =>
      var z := (zoom - 1) % U32;
      if z < MinZoom then MinZoom else z
  }

  /** The new iteration bound. Decrements are clamped to 2; Shift+O and Shift+I
      move to the next or previous multiple of 1000 using C's truncating division. */
  function IterationsAfter(a: Action, m: int): (r: int)
    requires !IsZoomAction(a)
    ensures a in {IterInc, IterIncTen, IterIncHundred, IterNextThousand} && m >= 0 ==> r > m
    ensures a in {IterDec, IterDecTen, IterDecHundred, IterPrevThousand} && m >= MinIterations ==> r <= m
  {
    match a
    case IterInc => m + 1
    case IterDec => Clamp(m - 1)
    case IterIncTen => m + 10
    case IterDecTen => Clamp(m - 10)
    case IterIncHundred => m + 100
    case IterNextThousand => (CDiv(m, 1000) + 1) * 1000
    case IterDecHundred => Clamp(m - 100)
    case IterPrevThousand => Clamp((CDiv(m, 1000) - 1) * 1000)
  }

  /** if (maxIterations < 2) maxIterations = 2; */
  function Clamp(m: int): (r: int)
    ensures r >= MinIterations
    ensures r == m || (m < MinIterations && r == MinIterations)
  {
    if m < MinIterations then MinIterations else m
  }

  /** Zoom results stay unsigned 32-bit values, and a zoom-out never leaves less than 6. */
  lemma ZoomBounds(a: Action, zoom: int)
    requires IsZoomAction(a) && 0 <= zoom < U32
    ensures 0 <= ZoomAfter(a, zoom) < U32
    ensures a == ZoomOut ==> ZoomAfter(a, zoom) >= MinZoom
    ensures a == ZoomOut && zoom > MinZoom ==> ZoomAfter(a, zoom) == zoom - 1
    ensures a == ZoomOut && zoom == 0 ==> ZoomAfter(a, zoom) == U32 - 1
  {
  }

  /** Zooming in one step and out one step returns to the same power, for every power
      at or above the floor that does not wrap. */
  lemma ZoomInOutRoundTrip(zoom: int)
    requires MinZoom <= zoom && zoom + 1 < U32
    ensures ZoomAfter(ZoomOut, ZoomAfter(ZoomIn, zoom)) == zoom
  {
  }

  /** Every decrement leaves a bound of at least 2, whatever the bound was; starting from a
      bound of at least 2, every action does. */
  lemma IterationsFloor(a: Action, m: int)
    requires !IsZoomAction(a)
    ensures a in {IterDec, IterDecTen, IterDecHundred, IterPrevThousand} ==> IterationsAfter(a, m) >= MinIterations
    ensures m >= MinIterations ==> IterationsAfter(a, m) >= MinIterations
  {
  }

  /** Shift+O: for a bound m >= 0, the next multiple of 1000 strictly above m. For
      -1000 < m < 0 truncation toward zero gives 1000, not 0. */
  lemma NextThousand(m: int)
    ensures m >= 0 ==> var r := IterationsAfter(IterNextThousand, m);
                       r % 1000 == 0 && m < r <= m + 1000
    ensures -1000 < m < 0 ==> IterationsAfter(IterNextThousand, m) == 1000
  {
    var q := CDiv(m, 1000);
    assert IterationsAfter(IterNextThousand, m) == (q + 1) * 1000;
    if m >= 0 {
      assert q * 1000 <= m < (q + 1) * 1000;
      assert ((q + 1) * 1000) % 1000 == 0;
    } else if m > -1000 {
      assert q == 0;
    }
  }

  /** Shift+I: below 2000 the bound drops to the floor 2; from 2000 up it drops to the
      multiple of 1000 one below m rounded down to a thousand. */
  lemma PrevThousand(m: int)
    requires m >= 0
    ensures m < 2000 ==> IterationsAfter(IterPrevThousand, m) == MinIterations
    ensures m >= 2000 ==> var r := IterationsAfter(IterPrevThousand, m);
                          r % 1000 == 0 && m - 2000 < r <= m - 1000
  {
  }

  /** Shift+O then Shift+I rounds a bound of at least 1000 down to a multiple of 1000. */
  lemma ThousandRoundTrip(m: int)
    requires m >= 1000
    ensures IterationsAfter(IterPrevThousand, IterationsAfter(IterNextThousand, m)) == m - m % 1000
  {
    var up := IterationsAfter(IterNextThousand, m);
    assert up == (m / 1000 + 1) * 1000;
    assert CDiv(up, 1000) == m / 1000 + 1;
  }

  /** Each increment is undone by the matching decrement when the bound is at least 2. */
  lemma IncDecRoundTrip(m: int)
    requires m >= MinIterations
    ensures IterationsAfter(IterDec, IterationsAfter(IterInc, m)) == m
    ensures IterationsAfter(IterDecTen, IterationsAfter(IterIncTen, m)) == m
    ensures IterationsAfter(IterDecHundred, IterationsAfter(IterIncHundred, m)) == m
  {
  }
}
