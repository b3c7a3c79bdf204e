/**
 * The state main() keeps across passes of its loop, and what one pass does with it:
 * three precision tracks with 5 future slots each and batch sizes 10240, 5120 and
 * 1024; the view (zoom power, iteration bound, centre and previous centre); the
 * request flags set by the input handling (doNewCalc, recalcSamePoints, pauseCalc,
 * calcDifference, drawThreePaths, eraseScreen) and the display screen; the three
 * difference arrays; and the unsigned progress counters numPointsFinished,
 * numPointsUpdated and numPointsToCalc.
 *
 * The three tracks differ only in float precision, which this model does not
 * capture; they are kept apart because each has its own slots, cursors, queue and
 * batch size, and the progress counters add up all three.
 */
module Engine {
  import opened ComplexNumbers
  import opened Grid
  import opened Kernel
  import opened Batches
  import opened Tracks
  import opened Controls
  import opened Difference

  /** numThreads: future slots per track. */
  const NumThreads: nat := 5
  /** batchSize_first_float, batchSize_second_float, batchSize_third_float. */
  const FirstBatchSize: nat := 10240
  const SecondBatchSize: nat := 5120
  const ThirdBatchSize: nat := 1024
  /** The value numPointsToCalc is reset to: the size of the three point arrays,
      3 * 1024 * 1024. */
  const TotalPoints: int := 3_145_728

  /** The points drawn by the three tracks since their last reset, with repetitions. */
  function DrawnTotal(a: seq<Range>, b: seq<Range>, c: seq<Range>): int
  {
    Points(a) + Points(b) + Points(c)
  }

  /** The meaning of the progress counters: numPointsFinished counts the drawn points and
      numPointsToCalc what is left of the three arrays, both modulo 2^32. */
  predicate CountersMatch(finished: int, toCalc: int, total: int)
  {
    finished == total % U32 && toCalc == (TotalPoints - total) % U32
  }

  /** Finished plus still to calculate is always the size of the three arrays, modulo 2^32. */
  lemma CountersConserve(finished: int, toCalc: int, total: int)
    requires CountersMatch(finished, toCalc, total)
    ensures 0 <= finished < U32 && 0 <= toCalc < U32
    ensures (finished + toCalc) % U32 == TotalPoints
  {
    ModAddStep(total, toCalc);
    ModAddStep(TotalPoints - total, total);
  }

  /** numPointsFinished += numPointsUpdated; numPointsToCalc -= numPointsUpdated; keeps the
      counters' meaning when numPointsUpdated is the wrapped number of points just drawn. */
  lemma CountersStep(finished: int, toCalc: int, total: int, delta: int, total': int)
    requires CountersMatch(finished, toCalc, total) && total' == total + delta
    ensures CountersMatch((finished + delta % U32) % U32, (toCalc - delta % U32) % U32, total')
  {
    ModAddStep(total, delta % U32);
    ModAddStep(delta, total);
    ModAddStep(TotalPoints - total, -(delta % U32));
    ModSubStep(TotalPoints - total, delta);
  }

  /** A track whose pass is over: the cursor has reached the end, nothing is in flight and
      nothing is waiting to be drawn. */
  ghost predicate PassDone(s: TrackState)
  {
    s.batch.hi >= |s.points| && InFlight(s.slots) == [] && s.rangesToDraw == []
  }

  /** When all three passes are over, numPointsFinished has counted every point of the three
      arrays plus every surplus launch, and numPointsToCalc is short by the surplus. After a
      reset nothing is launched twice, so exactly the 3 * 1024 * 1024 points are counted
      finished and none is left to calculate. */
  lemma PassCounters(s1: TrackState, s2: TrackState, s3: TrackState, b1: nat, b2: nat, b3: nat,
                     finished: int, toCalc: int)
    requires Inv(s1, b1) && Inv(s2, b2) && Inv(s3, b3)
    requires |s1.points| == |s2.points| == |s3.points| == GridSize
    requires PassDone(s1) && PassDone(s2) && PassDone(s3)
    requires CountersMatch(finished, toCalc, DrawnTotal(s1.drawn, s2.drawn, s3.drawn))
    ensures var extra := Points(s1.surplus) + Points(s2.surplus) + Points(s3.surplus);
            finished == (TotalPoints + extra) % U32 && toCalc == (-extra) % U32
    ensures s1.surplus == s2.surplus == s3.surplus == [] ==> finished == TotalPoints && toCalc == 0
  {
    PassPoints(s1, b1);
    PassPoints(s2, b2);
    PassPoints(s3, b3);
    CountersAt(finished, toCalc, DrawnTotal(s1.drawn, s2.drawn, s3.drawn),
               Points(s1.surplus) + Points(s2.surplus) + Points(s3.surplus));
  }

  /** A finished pass of one track has drawn its whole array plus its surplus. */
  lemma PassPoints(s: TrackState, batchSize: nat)
    requires Inv(s, batchSize) && PassDone(s)
    ensures Points(s.drawn) == Points(s.surplus) + |s.points|
  {
    PassComplete(s, batchSize, 0);
  }

  /** The counters once extra points beyond the three arrays have been drawn. */
  lemma CountersAt(finished: int, toCalc: int, total: int, extra: int)
    requires CountersMatch(finished, toCalc, total) && total == TotalPoints + extra
    ensures finished == (TotalPoints + extra) % U32 && toCalc == (-extra) % U32
    ensures extra == 0 ==> finished == TotalPoints && toCalc == 0
  {
  }

  /** The ranges launched a second time at start-up on one track: numThreads - 1 more
      copies of the first batch. */
  function StartupSurplus(batchSize: nat): (s: seq<Range>)
    ensures Points(s) == (NumThreads - 1) * batchSize
  {
    PointsCopies(Range(0, batchSize), NumThreads - 1);
    Copies(Range(0, batchSize), NumThreads - 1)
  }

  /** The first pass after start-up over-counts: every slot computed the first batch, so
      4 * (10240 + 5120 + 1024) = 65536 points too many are counted finished, and the
      unsigned numPointsToCalc ends at 2^32 - 65536 instead of 0. */
  lemma StartupPassCounters(s1: TrackState, s2: TrackState, s3: TrackState, b1: nat, b2: nat, b3: nat,
                            finished: int, toCalc: int)
    requires b1 == FirstBatchSize && b2 == SecondBatchSize && b3 == ThirdBatchSize
    requires Inv(s1, b1) && Inv(s2, b2) && Inv(s3, b3)
    requires |s1.points| == |s2.points| == |s3.points| == GridSize
    requires PassDone(s1) && PassDone(s2) && PassDone(s3)
    requires s1.surplus == StartupSurplus(b1) && s2.surplus == StartupSurplus(b2) && s3.surplus == StartupSurplus(b3)
    requires CountersMatch(finished, toCalc, DrawnTotal(s1.drawn, s2.drawn, s3.drawn))
    ensures finished == TotalPoints + 65536 && toCalc == U32 - 65536
  {
    PassCounters(s1, s2, s3, b1, b2, b3, finished, toCalc);
  }

  /** What msetPath promises about a traced path p of c under bound m: it lists the cells of
      z1, z2, ... in order, and has as many entries as the count the kernel stores when c
      escapes, and m entries when it does not. */
  predicate Traced(p: seq<GridPos>, c: Complex, m: int)
  {
    && (forall k :: 0 <= k < |p| ==> p[k] == Coord2Grid(Orbit(c, k + 1)))
    && (EscapeIterations(c, m) != 0 ==> |p| == EscapeIterations(c, m))
    && (EscapeIterations(c, m) == 0 && m >= 0 ==> |p| == m)
    && (|p| <= m || p == [])
  }

  method TracePath(c: Complex, m: int) returns (p: seq<GridPos>)
    ensures Traced(p, c, m)
  {
    p := MsetPath(c, m);
  }

  /** A track as the loop keeps it: the scheduling invariant, a full point array and
      numThreads slots. */
  ghost predicate TrackOk(s: TrackState, batchSize: nat)
  {
    && Inv(s, batchSize)
    && |s.points| == GridSize
    && |s.slots| == NumThreads
  }

  /** The start-up surplus of a track is there exactly until the first reset. */
  predicate SurplusOk(surplus: seq<Range>, batchSize: nat, restarted: bool)
  {
    if restarted then surplus == []
    else |surplus| == NumThreads - 1 && forall i :: 0 <= i < |surplus| ==> surplus[i] == Range(0, batchSize)
  }

  /** What the three tracks and the two progress counters satisfy between passes: every
      track keeps its scheduling invariant, the counters mean what CountersMatch says, and
      the start-up surplus is present exactly until the first reset. */
  ghost predicate TracksInv(a: TrackState, b: TrackState, c: TrackState, finished: int, toCalc: int, restarted: bool)
  {
    && TrackOk(a, FirstBatchSize) && TrackOk(b, SecondBatchSize) && TrackOk(c, ThirdBatchSize)
    && CountersMatch(finished, toCalc, DrawnTotal(a.drawn, b.drawn, c.drawn))
    && SurplusOk(a.surplus, FirstBatchSize, restarted)
    && SurplusOk(b.surplus, SecondBatchSize, restarted)
    && SurplusOk(c.surplus, ThirdBatchSize, restarted)
  }

  /** The polling pass on all three tracks keeps TracksInv: it moves no counter and draws
      nothing. */
  lemma PolledKeepsTracksInv(a: TrackState, b: TrackState, c: TrackState, finished: int, toCalc: int,
                             restarted: bool, ready1: seq<bool>, ready2: seq<bool>, ready3: seq<bool>,
                             maxIterations: int)
    requires TracksInv(a, b, c, finished, toCalc, restarted)
    requires |ready1| == |ready2| == |ready3| == NumThreads
    ensures TracksInv(PolledUpTo(a, ready1, maxIterations, FirstBatchSize, |ready1|),
                      PolledUpTo(b, ready2, maxIterations, SecondBatchSize, |ready2|),
                      PolledUpTo(c, ready3, maxIterations, ThirdBatchSize, |ready3|),
                      finished, toCalc, restarted)
  {
    PolledUpToKeepsInv(a, ready1, maxIterations, FirstBatchSize, |ready1|);
    PolledUpToKeepsInv(b, ready2, maxIterations, SecondBatchSize, |ready2|);
    PolledUpToKeepsInv(c, ready3, maxIterations, ThirdBatchSize, |ready3|);
    PolledUpToKeepsLogs(a, ready1, maxIterations, FirstBatchSize, |ready1|);
    PolledUpToKeepsLogs(b, ready2, maxIterations, SecondBatchSize, |ready2|);
    PolledUpToKeepsLogs(c, ready3, maxIterations, ThirdBatchSize, |ready3|);
  }

  /** The drawing step on one track keeps it a loop track, leaves its surplus alone and adds
      the queued points to its drawn points. */
  lemma DrawnKeepsTrackOk(s: TrackState, batchSize: nat)
    requires TrackOk(s, batchSize)
    ensures TrackOk(Drawn(s), batchSize) && Drawn(s).surplus == s.surplus
    ensures Points(Drawn(s).drawn) == Points(s.drawn) + Points(s.rangesToDraw)
  {
    DrawnKeepsInv(s, batchSize);
    PointsAppend(s.drawn, s.rangesToDraw);
  }

  /** The drawing step on all three tracks keeps TracksInv when both counters move by the
      wrapped number of points drawn, as numPointsFinished += numPointsUpdated and
      numPointsToCalc -= numPointsUpdated do. */
  lemma DrawnKeepsTracksInv(a: TrackState, b: TrackState, c: TrackState, finished: int, toCalc: int,
                            restarted: bool)
    requires TracksInv(a, b, c, finished, toCalc, restarted)
    ensures var delta := (Points(a.rangesToDraw) + Points(b.rangesToDraw) + Points(c.rangesToDraw)) % U32;
            TracksInv(Drawn(a), Drawn(b), Drawn(c), (finished + delta) % U32, (toCalc - delta) % U32, restarted)
  {
    DrawnKeepsTrackOk(a, FirstBatchSize);
    DrawnKeepsTrackOk(b, SecondBatchSize);
    DrawnKeepsTrackOk(c, ThirdBatchSize);
    CountersStep(finished, toCalc, DrawnTotal(a.drawn, b.drawn, c.drawn),
                 Points(a.rangesToDraw) + Points(b.rangesToDraw) + Points(c.rangesToDraw),
                 DrawnTotal(Drawn(a).drawn, Drawn(b).drawn, Drawn(c).drawn));
  }

  /** After doNewCalc, with every array holding the fresh grid, the tracks start over: the
      counters are back at 0 finished and the full size to calculate, and no surplus is left. */
  lemma NewCalcStartsOver(a: TrackState, b: TrackState, c: TrackState, grid: seq<Point>)
    requires TrackOk(a, FirstBatchSize) && TrackOk(b, SecondBatchSize) && TrackOk(c, ThirdBatchSize)
    requires |grid| == GridSize
    ensures TracksInv(AfterNewCalc(a, grid), AfterNewCalc(b, grid), AfterNewCalc(c, grid), 0, TotalPoints, true)
  {
    ResetsStartOver(a, grid, FirstBatchSize);
    ResetsStartOver(b, grid, SecondBatchSize);
    ResetsStartOver(c, grid, ThirdBatchSize);
  }

  /** After recalcSamePoints the tracks start over in the same way, on their own arrays. */
  lemma RecalcStartsOver(a: TrackState, b: TrackState, c: TrackState)
    requires TrackOk(a, FirstBatchSize) && TrackOk(b, SecondBatchSize) && TrackOk(c, ThirdBatchSize)
    ensures TracksInv(AfterRecalc(a), AfterRecalc(b), AfterRecalc(c), 0, TotalPoints, true)
  {
    ResetsStartOver(a, a.points, FirstBatchSize);
    ResetsStartOver(b, b.points, SecondBatchSize);
    ResetsStartOver(c, c.points, ThirdBatchSize);
  }

  /** The fill loop of start-up and of doNewCalc, which writes the three arrays alike: every
      cell gets its grid position, its value c for the view, and 0 iterations. */
  method FreshCells(center: Complex, zoom: nat) returns (grid: seq<Point>)
    ensures grid == FreshGrid(center, zoom)
  {
    var cells := new Point[GridSize](_ => Point(GridPos(0, 0), Zero, 0));
    FillGrid(cells, center, zoom);
    grid := cells[..];
  }

  /** The start-up background pass for screen 7: msetPoint over every point of the first
      float type's array, in order, at bound maxIterations. Its counts stay in the array. */
  method CanvasPass(grid: seq<Point>, maxIterations: int) returns (computed: seq<Point>)
    ensures computed == ComputeRange(grid, Range(0, |grid|), maxIterations)
  {
    var cells := new Point[|grid|](i requires 0 <= i < |grid| => grid[i]);
    assert cells[..] == grid;
    var _ := MsetBatch(cells, Range(0, |grid|), maxIterations);
    computed := cells[..];
  }

  /** numPointsUpdated over one drawing step: the drawing loops of the three tracks add up,
      in unsigned 32-bit arithmetic, the points of every queued range. */
  method TallyQueues(q1: seq<Range>, q2: seq<Range>, q3: seq<Range>) returns (updated: int)
    ensures updated == (Points(q1) + Points(q2) + Points(q3)) % U32 && 0 <= updated < U32
  {
    updated := TallyPoints(q1, 0);
    updated := TallyPoints(q2, updated);
    ModAddStep(Points(q1), Points(q2));
    updated := TallyPoints(q3, updated);
    ModAddStep(Points(q1) + Points(q2), Points(q3));
  }

  /** The three tracks and the two progress counters numPointsFinished and numPointsToCalc,
      with whether a reset has happened since start-up. */
  datatype Progress = Progress(first: TrackState, second: TrackState, third: TrackState,
                               finished: int, toCalc: int, restarted: bool)

  ghost predicate ProgressOk(p: Progress)
  {
    TracksInv(p.first, p.second, p.third, p.finished, p.toCalc, p.restarted)
  }

  /** Progress as the loop keeps it between its blocks: TracksInv holds. */
  type LoopProgress = p: Progress | ProgressOk(p) witness StartupProgress(FreshGrid(Zero, 8), FreshGrid(Zero, 8), 100)

  /** Start-up: the first array holds canvas (the grid after the background pass), the
      other two hold grid, every slot of every track is launched on its first batch,
      nothing is finished and the full size is left to calculate. */
  function StartupProgress(canvas: seq<Point>, grid: seq<Point>, maxIterations: int): (p: Progress)
    requires |canvas| == |grid| == GridSize
    ensures ProgressOk(p)
  {
    StartupInv(canvas, NumThreads, FirstBatchSize, maxIterations);
    StartupInv(grid, NumThreads, SecondBatchSize, maxIterations);
    StartupInv(grid, NumThreads, ThirdBatchSize, maxIterations);
    Progress(Startup(canvas, NumThreads, FirstBatchSize, maxIterations),
             Startup(grid, NumThreads, SecondBatchSize, maxIterations),
             Startup(grid, NumThreads, ThirdBatchSize, maxIterations), 0, TotalPoints, false)
  }

  /** The doNewCalc reset of all three tracks onto grid. */
  function NewCalcProgress(p: LoopProgress, grid: seq<Point>): LoopProgress
    requires |grid| == GridSize
  {
    NewCalcStartsOver(p.first, p.second, p.third, grid);
    Progress(AfterNewCalc(p.first, grid), AfterNewCalc(p.second, grid), AfterNewCalc(p.third, grid),
             0, TotalPoints, true)
  }

  /** The recalcSamePoints reset of all three tracks. */
  function RecalcProgress(p: LoopProgress): LoopProgress
  {
    RecalcStartsOver(p.first, p.second, p.third);
    Progress(AfterRecalc(p.first), AfterRecalc(p.second), AfterRecalc(p.third), 0, TotalPoints, true)
  }

  /** One polling pass over the slots of all three tracks. */
  function PolledProgress(p: LoopProgress, ready1: seq<bool>, ready2: seq<bool>, ready3: seq<bool>,
                          maxIterations: int): LoopProgress
    requires |ready1| == |ready2| == |ready3| == NumThreads
  {
    PolledKeepsTracksInv(p.first, p.second, p.third, p.finished, p.toCalc, p.restarted,
                         ready1, ready2, ready3, maxIterations);
    p.(first := PolledUpTo(p.first, ready1, maxIterations, FirstBatchSize, |ready1|),
       second := PolledUpTo(p.second, ready2, maxIterations, SecondBatchSize, |ready2|),
       third := PolledUpTo(p.third, ready3, maxIterations, ThirdBatchSize, |ready3|))
  }

  /** The drawing step of all three tracks, with both counters moved by updated. */
  function DrawnProgress(p: LoopProgress, updated: int): LoopProgress
    requires updated == (Points(p.first.rangesToDraw) + Points(p.second.rangesToDraw)
                         + Points(p.third.rangesToDraw)) % U32
  {
    DrawnKeepsTracksInv(p.first, p.second, p.third, p.finished, p.toCalc, p.restarted);
    p.(first := Drawn(p.first), second := Drawn(p.second), third := Drawn(p.third),
       finished := (p.finished + updated) % U32, toCalc := (p.toCalc - updated) % U32)
  }

  /** The two reset blocks applied in order, each when its flag is set; grid is the fresh
      grid for the current view. */
  function ResetProgress(p: LoopProgress, newCalc: bool, recalc: bool, grid: seq<Point>): (r: LoopProgress)
    requires |grid| == GridSize
    ensures newCalc || recalc ==> r.restarted && r.finished == 0 && r.toCalc == TotalPoints
    ensures newCalc || recalc ==> r.first.rangesToDraw == r.second.rangesToDraw == r.third.rangesToDraw == []
    ensures newCalc && !recalc ==> r.first.points == r.second.points == r.third.points == grid
  {
    var q := if newCalc then NewCalcProgress(p, grid) else p;
    if recalc then RecalcProgress(q) else q
  }

  /** The polling block: nothing moves while the calculation is paused. */
  function PolledUnlessPaused(p: LoopProgress, paused: bool, ready1: seq<bool>, ready2: seq<bool>,
                              ready3: seq<bool>, maxIterations: int): (r: LoopProgress)
    requires |ready1| == |ready2| == |ready3| == NumThreads
    ensures r.finished == p.finished && r.toCalc == p.toCalc && r.restarted == p.restarted
  {
    if paused then p else PolledProgress(p, ready1, ready2, ready3, maxIterations)
  }

  /** numPointsUpdated for a drawing step from p: the queued points of the three tracks,
      modulo 2^32. */
  function QueuedPoints(p: Progress): int
  {
    (Points(p.first.rangesToDraw) + Points(p.second.rangesToDraw) + Points(p.third.rangesToDraw)) % U32
  }

  /** What the calcDifference block does on display screen screen with the point arrays
      a, b and c: the pair the screen picks gets its array of deltas and the request is
      dropped, screens 1 and 8 keep the request pending, any other screen drops it and
      shows screen 1. d21, d31 and d32 are the difference arrays before, e21, e31 and e32
      after; pending and screen' are the request flag and the screen after. */
  predicate DifferenceStep(screen: int, a: seq<Point>, b: seq<Point>, c: seq<Point>,
                           d21: seq<int>, d31: seq<int>, d32: seq<int>,
                           e21: seq<int>, e31: seq<int>, e32: seq<int>, pending: bool, screen': int)
  {
    && |a| == |b| == |c|
    && match DispatchFor(screen)
       case Compare(hi, lo) =>
         && !pending && screen' == screen
         && e21 == (if hi == 2 then Deltas(a, b) else d21)
         && e31 == (if hi == 3 && lo == 1 then Deltas(a, c) else d31)
         && e32 == (if hi == 3 && lo == 2 then Deltas(b, c) else d32)
       case Wait => pending && screen' == screen && e21 == d21 && e31 == d31 && e32 == d32
       case Invalid => !pending && screen' == 1 && e21 == d21 && e31 == d31 && e32 == d32
  }

  /** Between blocks the counters add up to the size of the three arrays, modulo 2^32. */
  lemma ProgressConserves(p: LoopProgress)
    ensures 0 <= p.finished < U32 && 0 <= p.toCalc < U32
    ensures (p.finished + p.toCalc) % U32 == TotalPoints
  {
    CountersConserve(p.finished, p.toCalc, DrawnTotal(p.first.drawn, p.second.drawn, p.third.drawn));
  }

  /** The part of the loop's state that the polling and drawing blocks leave alone: the
      view, the bound, the request flags but eraseScreen, the screen and the paths. */
  datatype Settings = Settings(zoomDenomPower: int, maxIterations: int, coordCenter: Complex,
                               oldCoordCenter: Complex, pauseCalc: bool, firstPathPoint: Complex,
                               doNewCalc: bool, recalcSamePoints: bool, drawThreePaths: bool,
                               calcDifference: bool, displayScreen: int,
                               paths: (seq<GridPos>, seq<GridPos>, seq<GridPos>))

  class Loop {
    /** The three tracks (pointsToCalc_*, futures_*, batchIter_*, drawIter_*, rangesToDraw_*
        for the first, second and third float type), each held as a value, with the
        progress counters numPointsFinished and numPointsToCalc. */
    var progress: LoopProgress
    /** differentPixels2M1, differentPixels3M1, differentPixels3M2. */
    const diff2M1: array<int>
    const diff3M1: array<int>
    const diff3M2: array<int>

    var zoomDenomPower: int
    var maxIterations: int
    var coordCenter: Complex
    var oldCoordCenter: Complex
    var doNewCalc: bool
    var recalcSamePoints: bool
    var pauseCalc: bool
    var eraseScreen: bool
    var calcDifference: bool
    var drawThreePaths: bool
    var displayScreen: int
    /** firstPathPoint_*: the value c whose orbit is traced on screens 7 and 8. */
    var firstPathPoint: Complex
    /** pathPoints_*: one traced path per track. */
    var firstPath: seq<GridPos>
    var secondPath: seq<GridPos>
    var thirdPath: seq<GridPos>
    var numPointsUpdated: int

    /** The loop's invariant besides TracksInv, which the type of progress keeps: the
        difference arrays are distinct and full, and the zoom power and numPointsUpdated
        are unsigned. */
    ghost predicate Valid()
      reads this
    {
      && diff2M1 != diff3M1 && diff2M1 != diff3M2 && diff3M1 != diff3M2
      && diff2M1.Length == GridSize && diff3M1.Length == GridSize && diff3M2.Length == GridSize
      && 0 <= zoomDenomPower < U32
      && 0 <= numPointsUpdated < U32
    }

    ghost function CurrentSettings(): Settings
      reads this
    {
      Settings(zoomDenomPower, maxIterations, coordCenter, oldCoordCenter, pauseCalc, firstPathPoint,
               doNewCalc, recalcSamePoints, drawThreePaths, calcDifference, displayScreen,
               (firstPath, secondPath, thirdPath))
    }

    /** Start-up: zoom power 8, bound 100, centre 0; the three arrays hold the fresh grid,
        and the background pass then computes every point of the first one at bound 100;
        numPointsToCalc is their total size; every slot of every track is launched on its
        first batch. */
    constructor ()
      ensures Valid() && !progress.restarted
      ensures zoomDenomPower == 8 && maxIterations == 100 && coordCenter == Zero && oldCoordCenter == Zero
      ensures displayScreen == 1 && eraseScreen && !doNewCalc && !recalcSamePoints && !pauseCalc
      ensures !calcDifference && !drawThreePaths
      ensures progress.finished == 0 && numPointsUpdated == 0 && progress.toCalc == TotalPoints
      ensures progress.first == Startup(ComputeRange(FreshGrid(Zero, 8), Range(0, GridSize), 100),
                                        NumThreads, FirstBatchSize, 100)
      ensures progress.second == Startup(FreshGrid(Zero, 8), NumThreads, SecondBatchSize, 100)
      ensures progress.third == Startup(FreshGrid(Zero, 8), NumThreads, ThirdBatchSize, 100)
    {
      var grid := FreshCells(Zero, 8);
      var canvas := CanvasPass(grid, 100);
      progress := StartupProgress(canvas, grid, 100);
      diff2M1 := new int[GridSize](_ => 0);
      diff3M1 := new int[GridSize](_ => 0);
      diff3M2 := new int[GridSize](_ => 0);
      zoomDenomPower := 8;
      maxIterations := 100;
      coordCenter := Zero;
      oldCoordCenter := Zero;
      doNewCalc, recalcSamePoints, pauseCalc := false, false, false;
      eraseScreen, calcDifference, drawThreePaths := true, false, false;
      displayScreen := 1;
      firstPathPoint := Zero;
      firstPath, secondPath, thirdPath := [], [], [];
      numPointsUpdated := 0;
    }
    /** A click on grid cell g: the old centre is saved, the clicked cell becomes the centre,
        and a full recalculation is requested. */
    method Click(g: GridPos)
      requires Valid()
      modifies this`oldCoordCenter, this`coordCenter, this`doNewCalc
      ensures Valid()
      ensures oldCoordCenter == old(coordCenter) && doNewCalc
      ensures coordCenter == Grid2Coord(g, old(coordCenter), zoomDenomPower)
    {
      oldCoordCenter := coordCenter;
      coordCenter := Grid2Coord(g, coordCenter, zoomDenomPower);
      doNewCalc := true;
    }

    /** R: go back to the centre saved by the last click, with a full recalculation. */
    method Revert()
      requires Valid()
      modifies this`coordCenter, this`doNewCalc
      ensures Valid()
      ensures coordCenter == oldCoordCenter && doNewCalc
    {
      coordCenter := oldCoordCenter;
      doNewCalc := true;
    }

    /** A zoom or iteration key: zoom keys change the zoom power and request a full
        recalculation, iteration keys change the bound and request a recalculation of the
        same points. */
    method Press(a: Action)
      requires Valid()
      modifies this`zoomDenomPower, this`doNewCalc, this`maxIterations, this`recalcSamePoints
      ensures Valid()
      ensures IsZoomAction(a) ==> zoomDenomPower == ZoomAfter(a, old(zoomDenomPower)) && doNewCalc
                                  && maxIterations == old(maxIterations) && recalcSamePoints == old(recalcSamePoints)
      ensures !IsZoomAction(a) ==> maxIterations == IterationsAfter(a, old(maxIterations)) && recalcSamePoints
                                   && zoomDenomPower == old(zoomDenomPower) && doNewCalc == old(doNewCalc)
    {
      if IsZoomAction(a) {
        ZoomBounds(a, zoomDenomPower);
        zoomDenomPower := ZoomAfter(a, zoomDenomPower);
        doNewCalc := true;
      } else {
        maxIterations := IterationsAfter(a, maxIterations);
        recalcSamePoints := true;
      }
    }

    /** Keys 1 to 6: screens 1 to 3 show one track; screens 4 to 6 request a difference
        image and pause the calculation. */
    method SelectScreen(key: int)
      requires Valid() && 1 <= key <= 6
      modifies this`displayScreen, this`calcDifference, this`pauseCalc
      ensures Valid()
      ensures displayScreen == key
      ensures key >= 4 ==> calcDifference && pauseCalc
      ensures key <= 3 ==> calcDifference == old(calcDifference) && pauseCalc == old(pauseCalc)
    {
      displayScreen := key;
      if key >= 4 {
        calcDifference := true;
        pauseCalc := true;
      }
    }

    /** Keys 7 and 8 over grid cell g: trace that cell's orbit, request the 2 - 1 difference
        (screen 7) and pause. */
    method SelectPathScreen(key: int, g: GridPos)
      requires Valid() && (key == 7 || key == 8)
      modifies this`calcDifference, this`pauseCalc, this`drawThreePaths, this`displayScreen, this`firstPathPoint
      ensures Valid()
      ensures displayScreen == key && calcDifference && pauseCalc && drawThreePaths
      ensures firstPathPoint == Grid2Coord(g, coordCenter, zoomDenomPower)
    {
      calcDifference, pauseCalc, drawThreePaths := true, true, true;
      displayScreen := key;
      firstPathPoint := Grid2Coord(g, coordCenter, zoomDenomPower);
    }

    /** P toggles the pause; U unpauses and shows screen 1. */
    method TogglePause()
      requires Valid()
      modifies this`pauseCalc
      ensures Valid() && pauseCalc == !old(pauseCalc)
    {
      pauseCalc := !pauseCalc;
    }

    method Unpause()
      requires Valid()
      modifies this`pauseCalc, this`displayScreen
      ensures Valid() && !pauseCalc && displayScreen == 1
    {
      pauseCalc := false;
      displayScreen := 1;
    }

    /** The doNewCalc block: all futures are waited for, the three arrays get the fresh
        grid for the current centre and zoom, the counters and cursors are reset, the queues
        cleared and the screen erased. */
    method NewCalc()
      requires Valid() && doNewCalc
      modifies this`progress, this`eraseScreen, this`doNewCalc, this`numPointsUpdated
      ensures Valid() && progress.restarted && !doNewCalc && eraseScreen
      ensures progress.toCalc == TotalPoints && progress.finished == 0 && numPointsUpdated == 0
      ensures progress.first == AfterNewCalc(old(progress.first), FreshGrid(coordCenter, zoomDenomPower))
      ensures progress.second == AfterNewCalc(old(progress.second), FreshGrid(coordCenter, zoomDenomPower))
      ensures progress.third == AfterNewCalc(old(progress.third), FreshGrid(coordCenter, zoomDenomPower))
    {
      var grid := FreshCells(coordCenter, zoomDenomPower);
      progress := NewCalcProgress(progress, grid);
      eraseScreen, doNewCalc, numPointsUpdated := true, false, 0;
    }

    /** The recalcSamePoints block: as doNewCalc, but the point arrays are left as the
        finished batches left them, and the screen is not erased. */
    method RecalcSamePoints()
      requires Valid() && recalcSamePoints
      modifies this`progress, this`recalcSamePoints, this`numPointsUpdated
      ensures Valid() && progress.restarted && !recalcSamePoints
      ensures progress.toCalc == TotalPoints && progress.finished == 0 && numPointsUpdated == 0
      ensures progress.first == AfterRecalc(old(progress.first)) && progress.second == AfterRecalc(old(progress.second))
      ensures progress.third == AfterRecalc(old(progress.third))
    {
      progress := RecalcProgress(progress);
      recalcSamePoints, numPointsUpdated := false, 0;
    }

    /** The drawThreePaths block: trace the orbit of firstPathPoint once per track. */
    method TracePaths()
      requires Valid() && drawThreePaths
      modifies this`firstPath, this`secondPath, this`thirdPath, this`drawThreePaths
      ensures Valid() && !drawThreePaths
      ensures Traced(firstPath, firstPathPoint, maxIterations) && Traced(secondPath, firstPathPoint, maxIterations)
      ensures Traced(thirdPath, firstPathPoint, maxIterations)
    {
      firstPath := TracePath(firstPathPoint, maxIterations);
      secondPath := TracePath(firstPathPoint, maxIterations);
      thirdPath := TracePath(firstPathPoint, maxIterations);
      drawThreePaths := false;
    }

    /** The calcDifference block: the display screen picks the pair of tracks to compare, the
        difference loop fills that pair's array, and the request is dropped; on screens 1 and
        8 it stays pending; on any other screen it is dropped and screen 1 shown. */
    method CalcDifference() returns (counter: int, min: int, max: int)
      requires Valid() && calcDifference
      modifies diff2M1, diff3M1, diff3M2, this`calcDifference, this`displayScreen
      ensures Valid()
      ensures DifferenceStep(old(displayScreen), progress.first.points, progress.second.points, progress.third.points,
                             old(diff2M1[..]), old(diff3M1[..]), old(diff3M2[..]),
                             diff2M1[..], diff3M1[..], diff3M2[..], calcDifference, displayScreen)
      ensures counter == match DispatchFor(old(displayScreen))
                         case Compare(hi, lo) =>
                           |NonZeroAt(Deltas(if lo == 1 then progress.first.points else progress.second.points,
                                             if hi == 2 then progress.second.points else progress.third.points))|
                         case _ => 0
      ensures min <= 0 <= max
    {
      counter, min, max := 0, 0, 0;
      var p := progress;
      match DispatchFor(displayScreen)
      case Compare(hi, lo) =>
        if hi == 2 {
          counter, min, max := ComputeDifference(p.first.points, p.second.points, diff2M1);
        } else if lo == 1 {
          counter, min, max := ComputeDifference(p.first.points, p.third.points, diff3M1);
        } else {
          counter, min, max := ComputeDifference(p.second.points, p.third.points, diff3M2);
        }
        calcDifference := false;
      case Wait =>
      case Invalid =>
        calcDifference := false;
        displayScreen := 1;
    }

    /** The polling block: unless paused, one polling pass over each track's slots, with
        ready1, ready2 and ready3 telling which futures are ready. */
    method PollTracks(ready1: seq<bool>, ready2: seq<bool>, ready3: seq<bool>)
      requires Valid() && |ready1| == |ready2| == |ready3| == NumThreads
      modifies this`progress
      ensures Valid()
      ensures CurrentSettings() == old(CurrentSettings())
      ensures eraseScreen == old(eraseScreen) && numPointsUpdated == old(numPointsUpdated)
      ensures diff2M1[..] == old(diff2M1[..]) && diff3M1[..] == old(diff3M1[..]) && diff3M2[..] == old(diff3M2[..])
      ensures progress == PolledUnlessPaused(old(progress), pauseCalc, ready1, ready2, ready3, maxIterations)
      ensures !pauseCalc ==>
                && progress.first == PolledUpTo(old(progress.first), ready1, maxIterations, FirstBatchSize, |ready1|)
                && progress.second == PolledUpTo(old(progress.second), ready2, maxIterations, SecondBatchSize, |ready2|)
                && progress.third == PolledUpTo(old(progress.third), ready3, maxIterations, ThirdBatchSize, |ready3|)
      ensures progress.finished == old(progress.finished) && progress.toCalc == old(progress.toCalc)
      ensures progress.restarted == old(progress.restarted)
    {
      if !pauseCalc {
        progress := PolledProgress(progress, ready1, ready2, ready3, maxIterations);
      }
    }

    /** The drawing block: every queued range of every track is drawn, numPointsUpdated
        counts their points, and the two progress counters move by it. */
    method DrawFrame()
      requires Valid()
      modifies this`progress, this`eraseScreen, this`numPointsUpdated
      ensures Valid() && !eraseScreen
      ensures CurrentSettings() == old(CurrentSettings())
      ensures diff2M1[..] == old(diff2M1[..]) && diff3M1[..] == old(diff3M1[..]) && diff3M2[..] == old(diff3M2[..])
      ensures numPointsUpdated == QueuedPoints(old(progress))
      ensures progress == DrawnProgress(old(progress), numPointsUpdated)
    {
      var updated := TallyQueues(progress.first.rangesToDraw, progress.second.rangesToDraw,
                                 progress.third.rangesToDraw);
      progress, numPointsUpdated, eraseScreen := DrawnProgress(progress, updated), updated, false;
    }

    /** The two reset blocks of one pass, each when its flag asks for it. */
    method Resets()
      requires Valid()
      modifies this`progress, this`eraseScreen, this`doNewCalc, this`recalcSamePoints, this`numPointsUpdated
      ensures Valid() && !doNewCalc && !recalcSamePoints
      ensures zoomDenomPower == old(zoomDenomPower) && maxIterations == old(maxIterations)
      ensures coordCenter == old(coordCenter) && oldCoordCenter == old(oldCoordCenter)
      ensures pauseCalc == old(pauseCalc) && firstPathPoint == old(firstPathPoint)
      ensures drawThreePaths == old(drawThreePaths) && calcDifference == old(calcDifference)
      ensures displayScreen == old(displayScreen)
      ensures firstPath == old(firstPath) && secondPath == old(secondPath) && thirdPath == old(thirdPath)
      ensures progress == ResetProgress(old(progress), old(doNewCalc), old(recalcSamePoints),
                                        FreshGrid(coordCenter, zoomDenomPower))
      ensures (old(doNewCalc) || old(recalcSamePoints)) ==> progress.restarted && numPointsUpdated == 0
      ensures !(old(doNewCalc) || old(recalcSamePoints)) ==> numPointsUpdated == old(numPointsUpdated)
      ensures eraseScreen == (old(eraseScreen) || old(doNewCalc))
      ensures diff2M1[..] == old(diff2M1[..]) && diff3M1[..] == old(diff3M1[..]) && diff3M2[..] == old(diff3M2[..])
    {
      if doNewCalc {
        NewCalc();
      }
      if recalcSamePoints {
        RecalcSamePoints();
      }
    }

    /** The path tracer and the difference analyser of one pass, each when its flag asks
        for it. */
    method Analyses()
      requires Valid()
      modifies diff2M1, diff3M1, diff3M2, this`firstPath, this`secondPath, this`thirdPath,
               this`drawThreePaths, this`calcDifference, this`displayScreen
      ensures Valid() && !drawThreePaths
      ensures doNewCalc == old(doNewCalc) && recalcSamePoints == old(recalcSamePoints)
      ensures zoomDenomPower == old(zoomDenomPower) && maxIterations == old(maxIterations)
      ensures coordCenter == old(coordCenter) && oldCoordCenter == old(oldCoordCenter)
      ensures pauseCalc == old(pauseCalc) && firstPathPoint == old(firstPathPoint)
      ensures progress == old(progress) && eraseScreen == old(eraseScreen)
      ensures numPointsUpdated == old(numPointsUpdated)
      ensures old(drawThreePaths) ==> && Traced(firstPath, firstPathPoint, maxIterations)
                                      && Traced(secondPath, firstPathPoint, maxIterations)
                                      && Traced(thirdPath, firstPathPoint, maxIterations)
      ensures !old(drawThreePaths) ==> firstPath == old(firstPath) && secondPath == old(secondPath)
                                       && thirdPath == old(thirdPath)
      ensures old(calcDifference) ==>
                DifferenceStep(old(displayScreen), progress.first.points, progress.second.points, progress.third.points,
                               old(diff2M1[..]), old(diff3M1[..]), old(diff3M2[..]),
                               diff2M1[..], diff3M1[..], diff3M2[..], calcDifference, displayScreen)
      ensures !old(calcDifference) ==> && !calcDifference && displayScreen == old(displayScreen)
                                       && diff2M1[..] == old(diff2M1[..]) && diff3M1[..] == old(diff3M1[..])
                                       && diff3M2[..] == old(diff3M2[..])
    {
      if drawThreePaths {
        TracePaths();
      }
      if calcDifference {
        var _, _, _ := CalcDifference();
      }
    }

    /** One pass of the main loop after the input handling: the two resets, the path
        tracer, the difference analyser, the polling pass and the drawing step, in that
        order. The view, the bound and the pause flag stay as they are; after the pass no
        request is pending but the difference image, and nothing is queued for drawing. */
    method Step(ready1: seq<bool>, ready2: seq<bool>, ready3: seq<bool>)
      requires Valid() && |ready1| == |ready2| == |ready3| == NumThreads
      modifies this, diff2M1, diff3M1, diff3M2
      ensures Valid() && !doNewCalc && !recalcSamePoints && !drawThreePaths && !eraseScreen
      ensures zoomDenomPower == old(zoomDenomPower) && maxIterations == old(maxIterations)
      ensures coordCenter == old(coordCenter) && oldCoordCenter == old(oldCoordCenter)
      ensures pauseCalc == old(pauseCalc) && firstPathPoint == old(firstPathPoint)
      ensures var reset := ResetProgress(old(progress), old(doNewCalc), old(recalcSamePoints),
                                         FreshGrid(old(coordCenter), old(zoomDenomPower)));
              var polled := PolledUnlessPaused(reset, old(pauseCalc), ready1, ready2, ready3, old(maxIterations));
              && numPointsUpdated == QueuedPoints(polled)
              && progress == DrawnProgress(polled, QueuedPoints(polled))
      ensures old(calcDifference) ==>
                var reset := ResetProgress(old(progress), old(doNewCalc), old(recalcSamePoints),
                                           FreshGrid(old(coordCenter), old(zoomDenomPower)));
                DifferenceStep(old(displayScreen), reset.first.points, reset.second.points, reset.third.points,
                               old(diff2M1[..]), old(diff3M1[..]), old(diff3M2[..]),
                               diff2M1[..], diff3M1[..], diff3M2[..], calcDifference, displayScreen)
      ensures !old(calcDifference) ==> && !calcDifference && displayScreen == old(displayScreen)
                                       && diff2M1[..] == old(diff2M1[..]) && diff3M1[..] == old(diff3M1[..])
                                       && diff3M2[..] == old(diff3M2[..])
      ensures old(drawThreePaths) ==> && Traced(firstPath, old(firstPathPoint), old(maxIterations))
                                      && Traced(secondPath, old(firstPathPoint), old(maxIterations))
                                      && Traced(thirdPath, old(firstPathPoint), old(maxIterations))
      ensures !old(drawThreePaths) ==> firstPath == old(firstPath) && secondPath == old(secondPath)
                                       && thirdPath == old(thirdPath)
      ensures (old(doNewCalc) || old(recalcSamePoints)) ==> progress.restarted
      ensures progress.first.rangesToDraw == [] && progress.second.rangesToDraw == []
      ensures progress.third.rangesToDraw == []
    {
      Resets();
      Analyses();
      PollTracks(ready1, ready2, ready3);
      DrawFrame();
    }
  }
}
