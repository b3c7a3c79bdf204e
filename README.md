# FloatCompMandelbrot: the multi-precision batch engine, in Dafny

FloatCompMandelbrot computes the same 1024 x 1024 Mandelbrot image in three floating-point
precisions at once. Then it compares the iteration counts the three precisions produce.
Everything lives in `main.cpp`. This project models that program's core:

- the escape-time kernel (`msetPoint_*`, `msetBatch_*`, `msetPath_*`) and the complex type
  it runs on (`MyComplex_*`);
- the mapping between screen cells and values of c (`Grid2Coord_*`, `Coord2Grid_*`) and
  the point arrays it fills (`pointsToCalc_*`);
- the per-precision scheduler. Each track has 5 future slots, a batch cursor
  (`batchIter_*`) and a queue of finished ranges (`rangesToDraw_*`). Batch sizes are
  10240, 5120 and 1024 points. Start-up launches every slot. The polling pass fetches
  ready futures and hands out the next batch. The drawing pass empties the queues.
- the two resets. `doNewCalc` waits for all futures, refills the arrays for the new view
  and resets cursors, queues and counters. `recalcSamePoints` waits for all futures and
  resets cursors, queues and counters but keeps the arrays.
- the unsigned progress counters `numPointsFinished`, `numPointsUpdated` and
  `numPointsToCalc`;
- the parameter keys (zoom power, iteration bound), the click, revert, pause and
  screen keys;
- the difference analysis between two precisions (`differentPixels*`, its counters,
  minimum and maximum) and the screen-to-pair dispatch;
- the two palettes (`colorizer`, `colorizePixelDiff`).

Exact `real` arithmetic stands for all three float types, so the three tracks compute the
same values. They stay separate because each has its own slots, cursor, queue and batch
size, and the progress counters add up all three.

Module layout:

- `complex.dfy`, module `ComplexNumbers`: the complex type.
- `grid.dfy`, module `Grid`: cells, points, the cell/value maps and the fill loop.
- `kernel.dfy`, module `Kernel`: the escape loop specified by the orbit, the batch
  wrapper, the path tracer.
- `batches.dfy`, module `Batches`: the cursor and the schedule of ranges it hands out;
  point counts of range lists.
- `tracks.dfy`, module `Tracks`: one track's scheduling state as a value, its
  transitions and invariant. Class `Track` does the same over arrays.
- `controls.dfy`, module `Controls`: key actions and 32-bit unsigned wrap-around.
- `difference.dfy`, module `Difference`: the difference loop and the screen dispatch.
- `palette.dfy`, module `Palette`: the two colour maps.
- `engine.dfy`, module `Engine`: the main loop's state (class `Loop`) and one pass of
  the loop. This includes the invariant that ties the counters to what has been drawn.

A future is modelled as a slot that is either empty (`!valid()`) or holds a launched job
(range plus iteration bound). Which futures are ready is an input to the polling pass.
A job's points are computed when its future is fetched.

Each track also keeps three records for the proofs:

- the ranges the cursor handed out;
- the extra start-up launches;
- the ranges that went through drawing.

The track invariant says two things:

- The cursor has followed the schedule.
- Every launched range is, as often as launched, in flight, queued, or drawn.

From it the model proves that a finished pass has drawn every point exactly once, plus the
start-up extras.

Behaviour of the code that the model keeps as it is:

- Start-up sets the cursor to the first batch and then launches all 5 slots of a track on
  that same batch, because the launch loop (main.cpp:538-548) does not advance the cursor.
  The first batch is therefore computed and drawn 5 times per track. The first complete
  pass counts 4 x (10240 + 5120 + 1024) = 65536 points too many. `numPointsToCalc`
  (unsigned) ends at 2^32 - 65536 instead of 0. `Engine.StartupPassCounters` states this.
  After any reset, nothing is launched twice, and a complete pass ends at exactly
  3 x 1024 x 1024 finished and 0 to calculate (`Engine.PassCounters`).
- `recalcSamePoints` (main.cpp:731-763) does not zero the iteration counts. As the comment
  at main.cpp:729 says, it keeps the points and lets the new pass overwrite each count when
  its batch is computed again. Counts outside the batches that finish while the reset
  waits are left as they were until then (`Tracks.ResetsStartOver`).
- The start-up background pass (main.cpp:564-573) runs msetPoint over every point of the
  first float type at the start-up bound. It writes the same array the first track's
  futures work on, so at start-up that array already holds every count
  (`Engine.CanvasPass`, `Engine.Loop.constructor`). The futures recompute the same counts,
  which changes nothing (`Kernel.ComputeRangeIdempotent`).
- `Coord2Grid_*` (main.cpp:238-263) projects with a fixed scale of 256 about 0. It
  inverts `Grid2Coord_*` only in the initial view (`Grid.Coord2GridInitialView`,
  `Grid.Coord2GridIgnoresZoom`).

## Model

| member | source | states |
|---|---|---|
| ComplexNumbers.Add | main.cpp:52-57 | the sum is componentwise: taking b away again gives back a, in both parts |
| ComplexNumbers.Magnitude | main.cpp:70-74 | the squared modulus compared with 4 is never negative |
| ComplexNumbers.SquaredIsSelfProduct | main.cpp:58-69 | Squared() computes z * z as operator* does |
| ComplexNumbers.AddMulCommute | main.cpp:52-63 | + and * are commutative |
| ComplexNumbers.Mul | main.cpp:58-63 | (a+bi)(c+di) = (ac-bd)+(ad+bc)i; its partner MulMagnitude states that it multiplies squared moduli |
| ComplexNumbers.Squared | main.cpp:64-69 | a^2-b^2 + 2abi; SquaredIsSelfProduct ties it to operator* |
| ComplexNumbers.MulMagnitude | main.cpp:58-74 | the squared modulus of a product is the product of the squared moduli; Squared squares it |
| Grid.Pow2 | main.cpp:216 | the divisor 1 << zoomDenomPower is at least 1 |
| Grid.Grid2Coord | main.cpp:214-220 | the value's offset from the centre, times 2^zoom, is x - 512 in the real part and 512 - y in the imaginary part |
| Grid.GridRoundTrip | main.cpp:214-220 | the exact inverse map brings Grid2Coord's value back to the cell |
| Grid.CenterCellIsCenter | main.cpp:214-220 | cell (512, 512) is the centre itself |
| Grid.CellSpacing | main.cpp:214-220 | one cell right adds 1/2^zoom to the real part; one cell down subtracts it from the imaginary part |
| Grid.Orientation | main.cpp:214-220 | x order is kept in the real part; y order is reversed in the imaginary part |
| Grid.PanTranslates | main.cpp:593-601 | after a click on g recentres the view, cell h shows what cell h + g - 512 showed before |
| Grid.ZoomInHalvesSpacing | main.cpp:626 | one zoom power in, the cell twice as far from the centre shows the same value |
| Grid.InitialViewLeftEdge | main.cpp:429-436 | in the initial view (centre 0, power 8) cell (0, 512) is -2 |
| Grid.Trunc | main.cpp:242-243 | int() of a value truncates toward zero |
| Grid.Coord2Grid | main.cpp:238-245 | the plotted cell is within one cell of 256 times the value about (512, 512), x to the right and y upwards |
| Grid.Coord2GridInitialView | main.cpp:238-245 | in the initial view Coord2Grid maps Grid2Coord's value back to its cell |
| Grid.Coord2GridIgnoresZoom | main.cpp:238-245 | at zoom power 9 the value 0.5 (cell 768) is plotted at cell 640: the projection ignores the zoom |
| Grid.FreshGrid | main.cpp:476-499 | a fresh array has 1024 x 1024 points, each with 0 iterations |
| Grid.FreshGridLayout | main.cpp:476-499 | index 1024 * y + x of a fresh array holds cell (x, y), its value for the view, and 0 iterations |
| Grid.RowMajor | main.cpp:803-807 | index 1024 * y + x gives back x as i % 1024 and y as i / 1024 |
| Grid.FillGrid | main.cpp:476-499 | the nested fill loops leave the array equal to the fresh grid for the centre and zoom |
| Kernel.Orbit | main.cpp:277-278 | z0 = 0 and z(n+1) = z(n)^2 + c; StartNotEscaped, FirstStep and OriginOrbit state its first values |
| Kernel.LoopExit | main.cpp:276-279 | the loop's exit counter, taken over the orbit, lies between its start and the bound |
| Kernel.EscapeIterations | main.cpp:283-287 | the stored count is 0 or lies strictly between 0 and the bound; EscapeCharacterization says which |
| Kernel.Run | main.cpp:271-282 | the loop run on the current z stops between its start and the bound; RunIsLoopExit ties it to LoopExit |
| Kernel.RunIsLoopExit | main.cpp:271-288 | the loop run on the current z stops at the same counter as the orbit-defined exit |
| Kernel.LoopExitIsFirstEscape | main.cpp:276-279 | the loop stops at the first step whose squared modulus is at least 4, or at the bound |
| Kernel.StartNotEscaped | main.cpp:273-276 | z0 = 0 never counts as escaped |
| Kernel.FirstStep | main.cpp:277-278 | z1 = c |
| Kernel.EscapeCharacterization | main.cpp:271-288 | the stored count is 0 if and only if no step before the bound escaped; otherwise it is the first escaping step, between 1 and maxIterations - 1 |
| Kernel.StepsVersusCount | main.cpp:276-287 | the loop takes exactly the stored count of steps when the point escapes, and exactly maxIterations steps when it does not |
| Kernel.EscapeMonotone | main.cpp:271-288 | raising the bound keeps every nonzero count as it is |
| Kernel.OriginOrbit | main.cpp:277-278 | the orbit of 0 stays at 0 |
| Kernel.OriginNeverEscapes | main.cpp:283-287 | c = 0 is stored as 0 under every bound |
| Kernel.EscapesAtFirstStep | main.cpp:271-288 | a c with squared modulus at least 4 is stored as 1 under every bound above 1 |
| Kernel.LeftTipEscapesAtOne | main.cpp:271-288 | c = -2 is stored as 1, because the test is strict |
| Kernel.MsetPoint | main.cpp:271-288 | the array changes only at index i, whose count becomes the escape count of its own c |
| Kernel.ComputeRange | main.cpp:328-333 | computing a range keeps the array length |
| Kernel.MsetBatch | main.cpp:328-333 | returns the range it was given; the array becomes ComputeRange of the old array |
| Kernel.ComputeRangeKeepsCells | main.cpp:328-333 | inside the range each count becomes its escape count; outside nothing changes; cells and values never change |
| Kernel.ComputeRangeSplit | main.cpp:328-333 | computing [a, b) then [b, c) is computing [a, c) |
| Kernel.ComputeRangeCommute | main.cpp:326-333 | disjoint batches give the same array whichever finishes first |
| Kernel.ComputeRangeIdempotent | main.cpp:328-333 | computing a batch twice is computing it once |
| Kernel.Path | main.cpp:351-363 | the path of n steps has n entries |
| Kernel.PathElements | main.cpp:357-361 | entry k is the cell of z(k+1) |
| Kernel.MsetPath | main.cpp:351-363 | the path lists the cells of z1, z2, ...; its length is the stored count when c escapes and the bound when it does not |
| Batches.Schedule | main.cpp:882-895 | the batches handed out from a cursor lie between the cursor and the end, and there are none exactly when the cursor is at the end |
| Batches.NextRange | main.cpp:882-884 | the next batch starts where the cursor ends and is min(batchSize, points left) long |
| Batches.ScheduleContiguous | main.cpp:882-895 | the batches handed out from a cursor are non-empty and contiguous; all but the last are full; they start at the cursor and end at the array end |
| Batches.ScheduleCoversOnce | main.cpp:882-895 | every point past the cursor lies in exactly one handed-out batch; no other point lies in any |
| Batches.SchedulePoints | main.cpp:882-895 | the handed-out batches hold exactly the points past the cursor |
| Batches.ScheduleStep | main.cpp:882-885 | handing out a batch moves the cursor onto it |
| Batches.ScheduleDisjoint | main.cpp:882-895 | two different handed-out batches share no point |
| Batches.HundredInThirties | main.cpp:882-895 | 100 points in batches of 30 go out as [0,30), [30,60), [60,90), [90,100) |
| Batches.ScheduleDone | main.cpp:882 | once the cursor reaches the end nothing more is handed out |
| Batches.PointsAppend | main.cpp:953-958 | the points of two queues drawn one after the other add up |
| Batches.PointsPermutation | main.cpp:953-958 | the number of points drawn does not depend on the order in which futures returned their ranges |
| Batches.PointsCopies | main.cpp:538-548 | k launches of one range count k times its points |
| Controls.CDiv | main.cpp:635 | C's division truncates toward zero: for a >= 0 the quotient times b is at most a and one more is above it; for a < 0 the quotient times b is at least a and one less is below it |
| Controls.ZoomAfter | main.cpp:626-628 | the new zoom power is an unsigned 32-bit value |
| Controls.IterationsAfter | main.cpp:629-649 | from a bound of at least 0 every increment raises it; from a bound of at least 2 every decrement does not raise it |
| Controls.Clamp | main.cpp:630 | the bound is raised to 2 when below 2 and otherwise kept |
| Controls.ZoomBounds | main.cpp:626-628 | the zoom power stays a 32-bit unsigned value; ',' never leaves it below 6; at 0 it wraps to 2^32 - 1 |
| Controls.ZoomInOutRoundTrip | main.cpp:626-628 | '.' then ',' gives back the zoom power |
| Controls.IterationsFloor | main.cpp:629-649 | every decrement leaves the bound at least 2, and no key takes a bound of at least 2 below 2 |
| Controls.NextThousand | main.cpp:635 | Shift+O moves a bound of at least 0 to the next multiple of 1000 above it |
| Controls.PrevThousand | main.cpp:643 | Shift+I moves a bound below 2000 to 2, and a larger one to a multiple of 1000 between 1000 and 2000 below it |
| Controls.ThousandRoundTrip | main.cpp:635-643 | for a bound of at least 1000, Shift+O then Shift+I rounds it down to a multiple of 1000 |
| Controls.IncDecRoundTrip | main.cpp:629-647 | for a bound of at least 2, M/N, K/J and O/I undo each other |
| Difference.Deltas | main.cpp:804 | one difference per point: the higher-precision count minus the lower |
| Difference.CountNonZero | main.cpp:805-815 | the counter never exceeds the number of points compared |
| Difference.CountNonZeroIsCardinality | main.cpp:805-815 | the counter is the number of indices with a nonzero difference |
| Difference.CountNonZeroBounds | main.cpp:805-815 | the counter is at most the array size, and 0 if and only if every difference is 0 |
| Difference.SameCountsNoDifference | main.cpp:804-807 | equal counts give an all-black difference with a zero counter |
| Difference.SwapNegates | main.cpp:804-846 | swapping the two tracks negates every difference and keeps the counter |
| Difference.ComputeDifference | main.cpp:801-820 | fills the array with the differences; returns the nonzero count, and the minimum and maximum (starting from 0), each attained or 0 |
| Difference.DispatchFor | main.cpp:801-871 | a comparison always subtracts a lower track from a higher one, both among 1 to 3 |
| Difference.DispatchCases | main.cpp:801-871 | screens 4 to 7 compare a lower track with a higher one; screens 1 and 8 wait; any other screen is an error |
| Palette.UChar | main.cpp:409 | the cast to unsigned char keeps the value modulo 256 |
| Palette.Colorizer | main.cpp:395-403 | every colour is opaque with channels in 0..255; ColorizerOpaque, ColorizerOfIndex and ColorizerPeriod state the palette |
| Palette.ColorizerOpaque | main.cpp:395-403 | every colour is opaque; counts at most 0 are black; red lies between 64 and 244 in steps of 12 |
| Palette.ColorizerOfIndex | main.cpp:395-403 | the colour depends on the count through its 13 low bits: red from bits 0-3, green from 4-8, blue from 9-12 |
| Palette.PaletteIndexOfColorizer | main.cpp:395-403 | for a positive count, the count modulo 8192 can be read back from the colour |
| Palette.ColorizerPeriod | main.cpp:395-403 | two positive counts get the same colour if and only if they agree modulo 8192 |
| Palette.PixelDiffColor | main.cpp:406-416 | a difference colour is opaque, has no blue, and never has both red and green; PixelDiffSign states which |
| Palette.PixelDiffSign | main.cpp:406-416 | a zero difference is black; positive is green only, negative red only, at one of 128, 159, 190, 221 |
| Palette.PixelDiffAntisymmetric | main.cpp:406-416 | negating a difference swaps red and green |
| Palette.PixelDiffPeriod | main.cpp:406-416 | the shade repeats every 4, for positive and for negative differences |
| Tracks.Startup | main.cpp:502-548 | a track at start-up keeps its array, has numThreads slots all launched on the first batch, and nothing queued or drawn |
| Tracks.Launched | main.cpp:883-885 | a launch hands slot t the batch after the cursor, min(batchSize, points left) long, and leaves the array alone |
| Tracks.Fetched | main.cpp:880-881 | a fetch empties slot t and appends its range to the queue |
| Tracks.Polled | main.cpp:877-896 | one turn of the polling loop keeps the array size and the number of slots; PolledOutcomes states the cases |
| Tracks.PolledUpTo | main.cpp:877-896 | the polling loop over the first k slots keeps the array size and the number of slots |
| Tracks.Rewound | main.cpp:709-726 | resetting the cursors and the queue keeps the array and the slots, and nothing is counted drawn |
| Tracks.Drawn | main.cpp:953-960 | drawing empties the queue and keeps the array, slots and cursor |
| Tracks.AfterRecalc | main.cpp:731-763 | recalcSamePoints keeps the array size and slots, puts both cursors at the start, and clears the queue and drawn ranges |
| Tracks.AfterNewCalc | main.cpp:676-727 | doNewCalc installs the fresh grid and otherwise resets the track as recalcSamePoints does |
| Tracks.DrainedUpTo | main.cpp:678-682 | the waiting loop empties the slots it has passed, leaves the others, and keeps the cursor and the queue |
| Tracks.CursorStep | main.cpp:882-885 | handing out the next batch keeps "handed out so far, then still to come, is the whole schedule" |
| Tracks.BalancedLaunch | main.cpp:885 | a launch adds its range to those in flight, keeping every launch accounted for |
| Tracks.BalancedFetch | main.cpp:880-881 | a fetch moves the range from in flight to the queue |
| Tracks.BalancedDraw | main.cpp:953-960 | drawing moves the whole queue to drawn |
| Tracks.LaunchedKeepsInv | main.cpp:882-885 | launching the next batch keeps the track invariant |
| Tracks.FetchedKeepsInv | main.cpp:880-881 | fetching a ready future keeps the track invariant |
| Tracks.PolledKeepsInv | main.cpp:877-896 | one turn of the polling loop keeps the track invariant |
| Tracks.PolledUpToKeepsInv | main.cpp:877-896 | the polling loop over all slots keeps the track invariant |
| Tracks.DrawnKeepsInv | main.cpp:946-960 | the drawing step keeps the track invariant |
| Tracks.PolledOutcomes | main.cpp:877-896 | a busy slot that is not ready is left alone; a ready one is fetched, computed and queued, then relaunched on the next batch unless the cursor is at the end; an empty slot is launched unless at the end; other slots are untouched; the cursor never moves back |
| Tracks.PolledAtEnd | main.cpp:882-894 | once the cursor is at the end no batch is handed out |
| Tracks.PolledUpToBusy | main.cpp:877-896 | after the polling loop an empty slot means the cursor has reached the end |
| Tracks.DrainedAll | main.cpp:678-682 | after waiting for all futures nothing is in flight, and the cursor, queue and drawn ranges are unchanged |
| Tracks.DrainedKeepsPoints | main.cpp:678-682 | waiting changes only counts, and only in the batches still in flight |
| Tracks.ResetEstablishesInv | main.cpp:709-726 | after waiting, resetting the cursor and clearing the queue gives the invariant with nothing in flight |
| Tracks.ResetsStartOver | main.cpp:676-763 | both resets start a fresh pass: invariant, cursor at the start, empty queue, nothing in flight, no surplus; recalcSamePoints keeps every cell and value and every count outside the drained batches; doNewCalc installs the fresh grid |
| Tracks.StartupInv | main.cpp:502-548 | start-up establishes the track invariant |
| Tracks.StartupQueuesFirstRangeRepeatedly | main.cpp:538-548 | when the first k slots are ready at the first poll, the queue holds the first batch k times |
| Tracks.PassComplete | main.cpp:874-960 | when a pass is over, the drawn ranges are the schedule plus the surplus as a multiset; every point is drawn exactly once plus its surplus launches |
| Tracks.TallyPoints | main.cpp:953-958 | the drawing loop adds the points of every queued range to numPointsUpdated, modulo 2^32 |
| Tracks.Track.constructor | main.cpp:502-548 | a track over an array starts in the start-up state, with the invariant |
| Tracks.Track.Launch | main.cpp:883-885 | the arrays and cursor become the Launched state |
| Tracks.Track.PollSlot | main.cpp:877-896 | one turn of the polling loop on the arrays is the Polled transition |
| Tracks.Track.Poll | main.cpp:877-896 | the polling loop on the arrays is the PolledUpTo transition; it keeps the invariant |
| Tracks.Track.Drain | main.cpp:678-682 | the waiting loop on the arrays is DrainedUpTo |
| Tracks.Track.Rewind | main.cpp:709-726 | resetting cursors and the queue on the arrays is Rewound |
| Tracks.Track.Draw | main.cpp:946-960 | drawing empties the queue into drawn; adds its points to numPointsUpdated modulo 2^32; keeps the invariant |
| Engine.CountersConserve | main.cpp:991-993 | finished plus still to calculate is 3 x 1024 x 1024 modulo 2^32, both unsigned |
| Engine.CountersStep | main.cpp:991-993 | the two counter updates keep the counters' meaning |
| Engine.PassPoints | main.cpp:946-993 | a finished pass of one track has drawn its whole array plus its surplus |
| Engine.PassCounters | main.cpp:991-993 | when all three passes are over the counters are off by exactly the surplus; with no surplus they are 3 x 1024 x 1024 and 0 |
| Engine.StartupSurplus | main.cpp:538-548 | the extra start-up launches hold 4 x batchSize points |
| Engine.StartupPassCounters | main.cpp:529-548 | the first pass after start-up ends at 3 x 1024 x 1024 + 65536 finished and 2^32 - 65536 to calculate |
| Engine.TracePath | main.cpp:770-772 | a traced path lists the cells of z1, z2, ...; it has the stored count of entries when c escapes and the bound's when it does not |
| Engine.PolledKeepsTracksInv | main.cpp:875-942 | polling all three tracks keeps the loop invariant |
| Engine.DrawnKeepsTrackOk | main.cpp:946-989 | drawing one track keeps it valid; its drawn points grow by its queued points |
| Engine.DrawnKeepsTracksInv | main.cpp:946-993 | drawing all tracks and moving both counters by the wrapped total keeps the loop invariant |
| Engine.NewCalcStartsOver | main.cpp:676-727 | after doNewCalc the loop invariant holds with 0 finished and 3 x 1024 x 1024 to calculate |
| Engine.RecalcStartsOver | main.cpp:731-763 | after recalcSamePoints the loop invariant holds with 0 finished and 3 x 1024 x 1024 to calculate |
| Engine.FreshCells | main.cpp:686-703 | the fill loop yields the fresh grid for the centre and zoom |
| Engine.TallyQueues | main.cpp:946-989 | numPointsUpdated is the points of the three queues added up, modulo 2^32 |
| Engine.CanvasPass | main.cpp:564-573 | the background pass computes every count of the first array at the given bound |
| Engine.StartupProgress | main.cpp:529-573 | the start-up state, with the first array computed by the background pass, satisfies the loop invariant |
| Engine.ResetProgress | main.cpp:676-763 | after either reset the counters restart at 0 and 3 x 1024 x 1024, the queues are empty and a reset is recorded; after doNewCalc alone all three arrays are the fresh grid; the loop invariant holds |
| Engine.PolledUnlessPaused | main.cpp:875-942 | the polling block, paused or not, keeps both counters and the reset record, and the loop invariant |
| Engine.ProgressConserves | main.cpp:991-993 | between passes the counters are unsigned and add up to 3 x 1024 x 1024 modulo 2^32 |
| Engine.Loop.constructor | main.cpp:429-573 | the initial view, flags and counters; the first track starts on the array the background pass computed at bound 100, the other two on the fresh grid |
| Engine.Loop.Click | main.cpp:593-601 | the old centre is saved, the clicked cell becomes the centre, and a new calculation is requested |
| Engine.Loop.Revert | main.cpp:653-659 | the saved centre comes back, with a new calculation |
| Engine.Loop.Press | main.cpp:626-649 | zoom keys set the new zoom power and request doNewCalc; iteration keys set the new bound and request recalcSamePoints; nothing else changes |
| Engine.Loop.SelectScreen | main.cpp:660-665 | keys 1 to 6 pick the screen; 4 to 6 also request a difference and pause |
| Engine.Loop.SelectPathScreen | main.cpp:611-622 | keys 7 and 8 pick the screen, request a difference and the paths, pause, and take the cell's value as the path start |
| Engine.Loop.TogglePause | main.cpp:650 | P flips the pause |
| Engine.Loop.Unpause | main.cpp:666 | U unpauses and shows screen 1 |
| Engine.Loop.NewCalc | main.cpp:676-727 | the tracks become the doNewCalc reset onto the fresh grid; the counters restart; the screen is erased |
| Engine.Loop.RecalcSamePoints | main.cpp:731-763 | the tracks become the recalcSamePoints reset; the counters restart |
| Engine.Loop.TracePaths | main.cpp:766-792 | the three paths are traced from the path start under the current bound |
| Engine.Loop.CalcDifference | main.cpp:795-872 | by screen: fills the chosen pair's array with its differences, leaves the other two arrays as they were, and returns the nonzero count; or waits; or drops the request and shows screen 1; in both of those no array changes |
| Engine.Loop.PollTracks | main.cpp:875-942 | paused, nothing changes; otherwise each track makes one polling pass; the counters, view, flags, paths and difference arrays stay |
| Engine.Loop.DrawFrame | main.cpp:946-993 | numPointsUpdated is the wrapped total of the queues; the tracks are drawn and both counters move by it; view, flags, paths and difference arrays stay |
| Engine.Loop.Resets | main.cpp:676-763 | the tracks become the doNewCalc reset onto the fresh grid of the view, then the recalcSamePoints reset, each if requested; numPointsUpdated restarts if either ran; the screen is erased after doNewCalc; view, paths and difference arrays stay |
| Engine.Loop.Analyses | main.cpp:766-872 | a requested path trace leaves three traced paths, otherwise the paths stay; a requested difference does what CalcDifference does, otherwise the arrays, request and screen stay; tracks, counters, view and reset requests stay |
| Engine.Loop.Step | main.cpp:676-993 | one pass moves the tracks through the requested resets, the polling pass unless paused, and the drawing step, with numPointsUpdated their queued points; paths and difference arrays as in Analyses, on the reset arrays; view, bound and pause stay; no reset or path request is left and nothing is queued |

## Left out

- Floating point: the three float types, their rounding and their differences are not modelled. Exact `real` arithmetic stands for all three, so the model cannot show why the precisions disagree, only what the program does with the counts.
- Threads: `std::async` and the workers are not modelled. A batch's points are computed atomically when its future is fetched, or waited for in a reset, and readiness is an input. That workers write disjoint ranges is what `Batches.ScheduleDisjoint` and `Kernel.ComputeRangeCommute` support; interleavings are not modelled.
- Rendering and input: raylib calls, textures, `DrawPixel` and `DrawLine`, the on-screen text and the window loop are not modelled. Key and mouse reads become method calls on `Engine.Loop`.
- Engine.Loop.Click: the `mouseIsInBounds` test (main.cpp:265-267) guards the call in the source; the model takes any cell.
- Console output (`cout`, `cerr`), the type-limits report (keys D and startup) and the slash key (prints a value) are not modelled: they print only.
- Keys C and G toggle display overlays only and are not modelled.
- The drawing of the background canvas for screen 7 (main.cpp:564-573) is left out with the rest of the drawing; its computation is modelled.
- The path-drawing loop (main.cpp:779-790) is not modelled. It indexes the second and third paths by the first path's length and reads index `pathsize - 2`. Both can fall outside a path that is shorter.
- Grid.Pow2: `1ULL << zoomDenomPower` overflows past 63 in the source; the model uses an exact power of two.
- Grid.Trunc: a C `int()` conversion of a value out of int range is undefined; the model truncates without bound.
- Engine.Loop.Press: `maxIterations` is a C `int`, and its overflow at 2^31 - 1 is not modelled; the bound is unbounded here. The zoom power's unsigned wrap-around is modelled.
- Engine.Loop: holds each track's state as a value, not the arrays of `Tracks.Track`. The in-place array form is modelled and proved separately in `Tracks.Track`, but the loop does not share those arrays.
- Engine.Loop.CalcDifference: states the minimum and maximum only as bounding 0; `Difference.ComputeDifference` states them in full.
- The three precisions share one set of functions (`msetPoint_*`, `Grid2Coord_*` and so on appear three times in the source); each is modelled once.
