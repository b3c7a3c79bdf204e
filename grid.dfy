/**
 * The fixed 1024 x 1024 sample grid, the point record stored for each grid
 * cell (PointToCalc_*), and the affine map from a grid cell to the complex
 * plane (Grid2Coord_*). The map is exact here: division by 2^zoom is division
 * of reals.
 */
module Grid {
  import opened ComplexNumbers

  /** Side of the square grid, in cells. */
  const Side: int := 1024
  /** The grid cell that is mapped onto the view centre, in both axes. */
  const Half: int := 512
  /** Number of points per precision track: 1024 * 1024. */
  const GridSize: int := Side * Side

  /** int_vector2: a screen position. */
  datatype GridPos = GridPos(x: int, y: int)

  /** PointToCalc_*: where the point is drawn, the value c it stands for,
      and the escape count computed for it (0 when it did not escape). */
  datatype Point = Point(gridPos: GridPos, coord: Complex, iterations: int)

  /** 1ULL << k, without the 64-bit limit. */
  function Pow2(k: nat): (r: nat)
    ensures r >= 1
  {
    if k == 0 then 1 else 2 * Pow2(k - 1)
  }

  /** Grid2Coord_*: x grows to the right, and the imaginary part grows UP the
      screen, i.e. it falls as the row index y grows. */
  function Grid2Coord(g: GridPos, center: Complex, zoom: nat): (p: Complex)
    ensures (p.re - center.re) * (Pow2(zoom) as real) == (g.x - Half) as real
    ensures (center.im - p.im) * (Pow2(zoom) as real) == (g.y - Half) as real
  {
    var d := Pow2(zoom) as real;
    Complex(center.re + (g.x - Half) as real / d, center.im + (Half - g.y) as real / d)
  }

  /** The exact inverse of Grid2Coord: the (fractional) grid position of a value. */
  function CoordToGrid(p: Complex, center: Complex, zoom: nat): (real, real)
  {
    var d := Pow2(zoom) as real;
    ((p.re - center.re) * d + Half as real, Half as real - (p.im - center.im) * d)
  }

  /** C's conversion of a floating value to int: truncation toward zero. */
  function Trunc(x: real): (n: int)
    ensures 0.0 <= x ==> n as real <= x < n as real + 1.0
    ensures x < 0.0 ==> n as real - 1.0 < x <= n as real
  {
    if x >= 0.0 then x.Floor else -((-x).Floor)
  }

  /** Coord2Grid_*: the screen cell the path tracer plots a value at. It uses a fixed
      scale of 256 cells per unit about 0, whatever the current centre and zoom. */
  function Coord2Grid(p: Complex): (g: GridPos)
    ensures -1.0 < p.re * 256.0 - (g.x - Half) as real < 1.0
    ensures -1.0 < p.im * 256.0 - (Half - g.y) as real < 1.0
  {
    GridPos(Trunc(p.re * 256.0) + Half, Half - Trunc(p.im * 256.0))
  }

  /** In the initial view (centre 0, zoom power 8) Coord2Grid inverts Grid2Coord. */
  lemma Coord2GridInitialView(g: GridPos)
    ensures Coord2Grid(Grid2Coord(g, Zero, 8)) == g
  {
    assert Pow2(8) == 256 by {
      assert Pow2(4) == 16;
    }
    var p := Grid2Coord(g, Zero, 8);
    assert p.re * 256.0 == (g.x - Half) as real;
    assert p.im * 256.0 == (Half - g.y) as real;
  }

  /** In any other view it does not: one zoom power in, the cell 256 to the right of the
      centre is the value 0.5, which Coord2Grid plots 128 cells to the right. */
  lemma Coord2GridIgnoresZoom()
    ensures Grid2Coord(GridPos(Half + 256, Half), Zero, 9) == Complex(0.5, 0.0)
    ensures Coord2Grid(Grid2Coord(GridPos(Half + 256, Half), Zero, 9)) == GridPos(Half + 128, Half)
  {
    assert Pow2(9) == 512 by {
      assert Pow2(4) == 16;
    }
  }

  /** Mapping a grid cell to the plane and back gives the cell again. */
  lemma GridRoundTrip(g: GridPos, center: Complex, zoom: nat)
    ensures CoordToGrid(Grid2Coord(g, center, zoom), center, zoom) == (g.x as real, g.y as real)
  {
    var p := Grid2Coord(g, center, zoom);
    var d := Pow2(zoom) as real;
    assert (g.x - Half) as real == g.x as real - Half as real;
    assert (g.y - Half) as real == g.y as real - Half as real;
    assert (p.im - center.im) * d == -((center.im - p.im) * d);
    var q := CoordToGrid(p, center, zoom);
    assert q.0 == (p.re - center.re) * d + Half as real;
    assert q.0 == g.x as real;
    assert q.1 == g.y as real;
  }

  /** The middle cell (512, 512) is mapped onto the centre exactly. */
  lemma CenterCellIsCenter(center: Complex, zoom: nat)
    ensures Grid2Coord(GridPos(Half, Half), center, zoom) == center
  {
  }

  /** Moving one cell right adds 1/2^zoom to the real part; moving one cell down
      subtracts 1/2^zoom from the imaginary part. */
  lemma CellSpacing(g: GridPos, center: Complex, zoom: nat)
    ensures Grid2Coord(GridPos(g.x + 1, g.y), center, zoom).re
         == Grid2Coord(g, center, zoom).re + 1.0 / (Pow2(zoom) as real)
    ensures Grid2Coord(GridPos(g.x, g.y + 1), center, zoom).im
         == Grid2Coord(g, center, zoom).im - 1.0 / (Pow2(zoom) as real)
  {
    var d := Pow2(zoom) as real;
    assert (g.x + 1 - Half) as real / d == (g.x - Half) as real / d + 1.0 / d;
    assert (Half - (g.y + 1)) as real / d == (Half - g.y) as real / d - 1.0 / d;
  }

  /** A lower row on the screen is a smaller imaginary part; a column further
      right is a larger real part. */
  lemma Orientation(g: GridPos, h: GridPos, center: Complex, zoom: nat)
    ensures g.x < h.x ==> Grid2Coord(g, center, zoom).re < Grid2Coord(h, center, zoom).re
    ensures g.y < h.y ==> Grid2Coord(h, center, zoom).im < Grid2Coord(g, center, zoom).im
  {
    var d := Pow2(zoom) as real;
    var p, q := Grid2Coord(g, center, zoom), Grid2Coord(h, center, zoom);
    assert (q.re - p.re) * d == (h.x - g.x) as real;
    assert (p.im - q.im) * d == (h.y - g.y) as real;
  }

  /** Clicking cell g makes Grid2Coord(g) the new centre (main.cpp's pan). Afterwards
      every cell h shows what cell h + (g - (512,512)) showed before: a pure translation. */
  lemma PanTranslates(g: GridPos, h: GridPos, center: Complex, zoom: nat)
    ensures Grid2Coord(h, Grid2Coord(g, center, zoom), zoom)
         == Grid2Coord(GridPos(h.x + g.x - Half, h.y + g.y - Half), center, zoom)
  {
    var d := Pow2(zoom) as real;
    assert (h.x - Half) as real / d + (g.x - Half) as real / d == (h.x + g.x - Half - Half) as real / d;
    assert (Half - h.y) as real / d + (Half - g.y) as real / d == (Half - (h.y + g.y - Half)) as real / d;
  }

  /** Raising the zoom power by one halves the cell spacing about the centre:
      the cell twice as far from (512, 512) at zoom+1 shows what the cell showed at zoom. */
  lemma ZoomInHalvesSpacing(g: GridPos, center: Complex, zoom: nat)
    ensures Grid2Coord(GridPos(Half + 2 * (g.x - Half), Half + 2 * (g.y - Half)), center, zoom + 1)
         == Grid2Coord(g, center, zoom)
  {
    var d := Pow2(zoom) as real;
    assert Pow2(zoom + 1) as real == 2.0 * d;
    assert (2 * (g.x - Half)) as real / (2.0 * d) == (g.x - Half) as real / d;
    assert (Half - (Half + 2 * (g.y - Half))) as real / (2.0 * d) == (Half - g.y) as real / d;
  }

  /** The initial view: centre 0, zoom power 8 (1/256 per cell). Cell (0, 512) is -2,
      the left tip of the Mandelbrot set. */
  lemma InitialViewLeftEdge()
    ensures Grid2Coord(GridPos(0, Half), Zero, 8) == Complex(-2.0, 0.0)
  {
    assert Pow2(8) == 256 by {
      assert Pow2(4) == 16;
    }
  }

  /** The point stored at array index i: row-major, i = 1024 * y + x, iterations reset to 0. */
  function FreshPoint(i: int, center: Complex, zoom: nat): Point
  {
    var g := GridPos(i % Side, i / Side);
    Point(g, Grid2Coord(g, center, zoom), 0)
  }

  /** The whole point array as the initialisation and the full reset leave it. */
  function FreshGrid(center: Complex, zoom: nat): (s: seq<Point>)
    ensures |s| == GridSize
    ensures forall i :: 0 <= i < |s| ==> s[i].iterations == 0
  {
    seq(GridSize, i => FreshPoint(i, center, zoom))
  }

  /** Index 1024 * y + x of a fresh grid holds cell (x, y) and its value. */
  lemma FreshGridLayout(x: int, y: int, center: Complex, zoom: nat)
    requires 0 <= x < Side && 0 <= y < Side
    ensures 0 <= Side * y + x < GridSize
    ensures FreshGrid(center, zoom)[Side * y + x]
         == Point(GridPos(x, y), Grid2Coord(GridPos(x, y), center, zoom), 0)
  {
    RowMajor(x, y);
  }

  lemma RowMajor(x: int, y: int)
    requires 0 <= x < Side && 0 <= y < Side
    ensures 0 <= Side * y + x < GridSize
    ensures (Side * y + x) % Side == x && (Side * y + x) / Side == y
  {
  }

  /** The nested initialisation loop of main.cpp: for every row y and column x,
      overwrite point 1024 * y + x with its cell, its value and iterations 0. */
  method FillGrid(points: array<Point>, center: Complex, zoom: nat)
    requires points.Length == GridSize
    modifies points
    ensures points[..] == FreshGrid(center, zoom)
  {
    var y := 0;
    while y < Side
      invariant 0 <= y <= Side
      invariant forall i :: 0 <= i < Side * y ==> points[i] == FreshPoint(i, center, zoom)
    {
      var x := 0;
      while x < Side
        invariant 0 <= x <= Side
        invariant forall i :: 0 <= i < Side * y + x ==> points[i] == FreshPoint(i, center, zoom)
      {
        RowMajor(x, y);
        var g := GridPos(x, y);
        points[Side * y + x] := Point(g, Grid2Coord(g, center, zoom), 0);
        x := x + 1;
      }
      y := y + 1;
    }
    assert points[..] == FreshGrid(center, zoom);
  }
}
