/**
 * The work scheduler of one precision track. A track owns its point array
 * (pointsToCalc_*), numThreads future slots (futures_*), the batch cursor
 * (batchIter_*), the last range fetched (drawIter_*) and the queue of finished
 * ranges waiting to be drawn (rangesToDraw_*).
 *
 * A future is modelled as a slot: None when it is not valid(), Some(job) when a
 * batch has been launched on it and not yet fetched. Whether a future is ready is
 * an input (one bool per slot). A batch's points are computed when its future is
 * fetched with get(), which then leaves the slot empty.
 *
 * Three records are kept beside the program's own state, for the proofs only:
 * `issued`, the ranges the cursor handed out since the last reset; `surplus`,
 * the extra launches made at start-up on the same first range; and `drawn`, the
 * ranges that went through the queue to the drawing step.
 */
module Tracks {
  import opened Grid
  import opened Kernel
  import opened Batches
  import opened Controls

  datatype Option<T> = None | Some(value: T)

  datatype TrackState = TrackState(
    points: seq<Point>,
    slots: seq<Option<Job>>,
    batch: Range,
    drawIter: Range,
    rangesToDraw: seq<Range>,
    issued: seq<Range>,
    surplus: seq<Range>,
    drawn: seq<Range>)

  /** The range of a slot's job, as a list of zero or one ranges. */
  function SlotRange(o: Option<Job>): seq<Range>
  {
    if o.Some? then [o.value.range] else []
  }

  /** The ranges of all launched, not yet fetched batches, in slot order. */
  function InFlight(slots: seq<Option<Job>>): seq<Range>
  {
    if slots == [] then [] else SlotRange(slots[0]) + InFlight(slots[1..])
  }

  /** A range that lies inside an array of n points. */
  predicate InBounds(r: Range, n: int)
  {
    r.lo <= r.hi <= n
  }

  /** What every state of a track satisfies: a positive batch size, a cursor inside the
      array, and every launched batch inside the array. */
  predicate WellFormed(s: TrackState, batchSize: nat)
  {
    && batchSize > 0
    && InBounds(s.batch, |s.points|)
    && forall t :: 0 <= t < |s.slots| && s.slots[t].Some? ==> InBounds(s.slots[t].value.range, |s.points|)
  }

  /** The ranges handed out so far, followed by the ranges still to come, are the whole
      schedule from a reset cursor. */
  predicate CursorInv(issued: seq<Range>, batch: Range, n: nat, batchSize: nat)
    requires batchSize > 0
  {
    issued + Schedule(batchSize, n, batch) == Schedule(batchSize, n, ResetCursor)
  }

  /** How many times range r occurs in rs. */
  function Count(rs: seq<Range>, r: Range): nat
  {
    if rs == [] then 0 else (if rs[0] == r then 1 else 0) + Count(rs[1..], r)
  }

  /** Every launched range is, exactly as often, still in flight, queued, or drawn. */
  ghost predicate Balanced(launched: seq<Range>, slots: seq<Option<Job>>, queue: seq<Range>, drawn: seq<Range>)
  {
    forall r :: Count(launched, r) == Count(InFlight(slots) + queue + drawn, r)
  }

  /** The scheduling invariant: the cursor has followed the schedule, and every range
      launched (handed out, or launched again at start-up) is accounted for. */
  ghost predicate Inv(s: TrackState, batchSize: nat)
  {
    && WellFormed(s, batchSize)
    && CursorInv(s.issued, s.batch, |s.points|, batchSize)
    && Balanced(s.surplus + s.issued, s.slots, s.rangesToDraw, s.drawn)
  }

  /** The state right after start-up: the cursor is set to [0, batchSize) and then EVERY
      slot is launched on that same range, since the launch loop does not advance it. */
  function Startup(points: seq<Point>, numThreads: nat, batchSize: nat, maxIterations: int): (s: TrackState)
    requires numThreads >= 1
    ensures s.points == points && |s.slots| == numThreads
    ensures forall t :: 0 <= t < numThreads ==> s.slots[t] == Some(Job(Range(0, batchSize), maxIterations))
    ensures s.rangesToDraw == [] && s.drawn == []
  {
    var first := Range(0, batchSize);
    TrackState(points, Copies(Some(Job(first, maxIterations)), numThreads), first, ResetCursor, [],
               [first], Copies(first, numThreads - 1), [])
  }

  /** Launch the next range on slot t: the cursor moves onto it and the slot holds it. */
  function Launched(s: TrackState, t: nat, maxIterations: int, batchSize: nat): (r: TrackState)
    requires t < |s.slots| && s.batch.hi < |s.points|
    ensures r.batch.lo == s.batch.hi && r.batch.hi - r.batch.lo == Min(batchSize, |s.points| - s.batch.hi)
    ensures r.points == s.points && |r.slots| == |s.slots| && r.slots[t] == Some(Job(r.batch, maxIterations))
  {
    var r := NextRange(s.batch, batchSize, |s.points|);
    s.(batch := r, slots := s.slots[t := Some(Job(r, maxIterations))], issued := s.issued + [r])
  }

  /** get() on the future of slot t: its batch's points are computed, its range becomes the
      last fetched range and is queued for drawing, and the slot is left empty. */
  function Fetched(s: TrackState, t: nat): (r: TrackState)
    requires t < |s.slots| && s.slots[t].Some?
    ensures |r.points| == |s.points| && |r.slots| == |s.slots| && r.slots[t] == None
    ensures r.rangesToDraw == s.rangesToDraw + [s.slots[t].value.range]
  {
    var job := s.slots[t].value;
    s.(points := ComputeRange(s.points, job.range, job.maxIterations),
       drawIter := job.range,
       rangesToDraw := s.rangesToDraw + [job.range],
       slots := s.slots[t := None])
  }

  /** One turn of the polling loop for slot t. */
  function Polled(s: TrackState, t: nat, ready: bool, maxIterations: int, batchSize: nat): (r: TrackState)
    requires t < |s.slots|
    ensures |r.points| == |s.points| && |r.slots| == |s.slots|
  {
    if s.slots[t].Some? then
      if ready then
        var f := Fetched(s, t);
        if f.batch.hi < |f.points| then Launched(f, t, maxIterations, batchSize) else f
      else s
    else if s.batch.hi < |s.points| then Launched(s, t, maxIterations, batchSize)
    else s
  }

  /** The polling loop over slots 0 .. k-1, in order. */
  function PolledUpTo(s: TrackState, ready: seq<bool>, maxIterations: int, batchSize: nat, k: nat): (r: TrackState)
    requires k <= |ready| == |s.slots|
    ensures |r.points| == |s.points| && |r.slots| == |s.slots|
    ensures forall u :: k <= u < |s.slots| ==> r.slots[u] == s.slots[u]
  {
    if k == 0 then s
    else Polled(PolledUpTo(s, ready, maxIterations, batchSize, k - 1), k - 1, ready[k - 1], maxIterations, batchSize)
  }

  /** Emptying slot t during a reset: a launched batch still finishes (its points are
      computed) but its range is discarded. */
  function DrainedSlot(s: TrackState, t: nat): (r: TrackState)
    requires t < |s.slots|
    ensures |r.points| == |s.points| && |r.slots| == |s.slots|
  {
    if s.slots[t].Some? then
      var job := s.slots[t].value;
      s.(points := ComputeRange(s.points, job.range, job.maxIterations), slots := s.slots[t := None])
    else s
  }

  /** The waiting loop of a reset over slots 0 .. k-1. */
  function DrainedUpTo(s: TrackState, k: nat): (r: TrackState)
    requires k <= |s.slots|
    ensures |r.points| == |s.points| && |r.slots| == |s.slots|
    ensures forall u :: 0 <= u < k ==> r.slots[u] == None
    ensures forall u :: k <= u < |s.slots| ==> r.slots[u] == s.slots[u]
    ensures r.batch == s.batch && r.rangesToDraw == s.rangesToDraw
  {
    if k == 0 then s else DrainedSlot(DrainedUpTo(s, k - 1), k - 1)
  }

  /** What both resets do to a track after waiting for its futures: the cursor and the
      last fetched range go back to the start, and the drawing queue is cleared. */
  function Rewound(s: TrackState): (r: TrackState)
    ensures r.points == s.points && r.slots == s.slots
    ensures Points(r.drawn) == 0 && r.rangesToDraw == []
  {
    s.(batch := ResetCursor, drawIter := ResetCursor, rangesToDraw := [], issued := [], surplus := [], drawn := [])
  }

  /** The drawing step: every queued range is drawn and the queue is cleared. */
  function Drawn(s: TrackState): (r: TrackState)
    ensures r.rangesToDraw == [] && r.points == s.points && r.slots == s.slots && r.batch == s.batch
  {
    s.(rangesToDraw := [], drawn := s.drawn + s.rangesToDraw)
  }

  // ----- Lemmas about the slot list -----

  /** Launching on an empty slot adds exactly its range to the ranges in flight. */
  lemma {:induction false} InFlightLaunch(slots: seq<Option<Job>>, t: nat, job: Job)
    requires t < |slots| && slots[t] == None
    ensures multiset(InFlight(slots[t := Some(job)])) == multiset(InFlight(slots)) + multiset{job.range}
  {
    var u := slots[t := Some(job)];
    if t == 0 {
      assert u[1..] == slots[1..];
    } else {
      assert u[1..] == slots[1..][t - 1 := Some(job)];
      InFlightLaunch(slots[1..], t - 1, job);
      assert InFlight(u) == SlotRange(slots[0]) + InFlight(u[1..]) by { assert u[0] == slots[0]; }
      var head := multiset(SlotRange(slots[0]));
      calc {
        multiset(InFlight(u));
        head + multiset(InFlight(u[1..]));
        head + (multiset(InFlight(slots[1..])) + multiset{job.range});
        (head + multiset(InFlight(slots[1..]))) + multiset{job.range};
        multiset(InFlight(slots)) + multiset{job.range};
      }
    }
  }

  /** Fetching a slot's future removes exactly its range from the ranges in flight. */
  lemma {:induction false} InFlightFetch(slots: seq<Option<Job>>, t: nat)
    requires t < |slots| && slots[t].Some?
    ensures multiset(InFlight(slots[t := None])) + multiset{slots[t].value.range} == multiset(InFlight(slots))
  {
    var u := slots[t := None];
    if t == 0 {
      assert u[1..] == slots[1..];
    } else {
      assert u[1..] == slots[1..][t - 1 := None];
      InFlightFetch(slots[1..], t - 1);
      var head := multiset(SlotRange(slots[0]));
      calc {
        multiset(InFlight(u)) + multiset{slots[t].value.range};
        (head + multiset(InFlight(u[1..]))) + multiset{slots[t].value.range};
        head + (multiset(InFlight(u[1..])) + multiset{slots[1..][t - 1].value.range});
        head + multiset(InFlight(slots[1..]));
        multiset(InFlight(slots));
      }
    }
  }

  /** No range is in flight exactly when every slot is empty. */
  lemma {:induction false} InFlightEmpty(slots: seq<Option<Job>>)
    ensures InFlight(slots) == [] <==> forall t :: 0 <= t < |slots| ==> slots[t] == None
  {
    if slots != [] {
      InFlightEmpty(slots[1..]);
      assert forall t :: 1 <= t < |slots| ==> slots[t] == slots[1..][t - 1];
    }
  }

  /** Count is the multiplicity in the multiset of the list. */
  lemma {:induction false} CountIsMultiplicity(rs: seq<Range>, r: Range)
    ensures Count(rs, r) == multiset(rs)[r]
  {
    if rs != [] {
      CountIsMultiplicity(rs[1..], r);
      assert rs == [rs[0]] + rs[1..];
      assert multiset(rs) == multiset{rs[0]} + multiset(rs[1..]);
    }
  }

  /** Balanced says that the launched ranges and the ranges in flight, queued and drawn are
      the same multiset. */
  lemma BalancedIsSameMultiset(launched: seq<Range>, slots: seq<Option<Job>>, queue: seq<Range>, drawn: seq<Range>)
    ensures Balanced(launched, slots, queue, drawn)
        <==> multiset(launched) == multiset(InFlight(slots) + queue + drawn)
  {
    var rest := InFlight(slots) + queue + drawn;
    forall r
      ensures Count(launched, r) == multiset(launched)[r] && Count(rest, r) == multiset(rest)[r]
    {
      CountIsMultiplicity(launched, r);
      CountIsMultiplicity(rest, r);
    }
    if Balanced(launched, slots, queue, drawn) {
      assert forall r :: multiset(launched)[r] == multiset(rest)[r];
    }
  }

  // ----- The invariant is kept by every step -----

  lemma CursorStep(issued: seq<Range>, batch: Range, n: nat, batchSize: nat)
    requires batchSize > 0 && batch.hi < n && CursorInv(issued, batch, n, batchSize)
    ensures var r := NextRange(batch, batchSize, n);
            CursorInv(issued + [r], r, n, batchSize)
  {
    var r := NextRange(batch, batchSize, n);
    ScheduleStep(batchSize, n, batch);
    assert (issued + [r]) + Schedule(batchSize, n, r) == issued + ([r] + Schedule(batchSize, n, r));
  }

  lemma BalancedLaunch(launched: seq<Range>, slots: seq<Option<Job>>, queue: seq<Range>, drawn: seq<Range>,
                       t: nat, job: Job)
    requires Balanced(launched, slots, queue, drawn) && t < |slots| && slots[t] == None
    ensures Balanced(launched + [job.range], slots[t := Some(job)], queue, drawn)
  {
    BalancedIsSameMultiset(launched, slots, queue, drawn);
    BalancedIsSameMultiset(launched + [job.range], slots[t := Some(job)], queue, drawn);
    InFlightLaunch(slots, t, job);
    var u := slots[t := Some(job)];
    calc {
      multiset(InFlight(u) + queue + drawn);
      multiset(InFlight(u)) + multiset(queue) + multiset(drawn);
      multiset(InFlight(slots)) + multiset{job.range} + multiset(queue) + multiset(drawn);
      multiset(InFlight(slots) + queue + drawn) + multiset{job.range};
      multiset(launched) + multiset{job.range};
      multiset(launched + [job.range]);
    }
  }

  lemma BalancedFetch(launched: seq<Range>, slots: seq<Option<Job>>, queue: seq<Range>, drawn: seq<Range>, t: nat)
    requires Balanced(launched, slots, queue, drawn) && t < |slots| && slots[t].Some?
    ensures Balanced(launched, slots[t := None], queue + [slots[t].value.range], drawn)
  {
    var r := slots[t].value.range;
    BalancedIsSameMultiset(launched, slots, queue, drawn);
    BalancedIsSameMultiset(launched, slots[t := None], queue + [r], drawn);
    InFlightFetch(slots, t);
    var u := slots[t := None];
    calc {
      multiset(InFlight(u) + (queue + [r]) + drawn);
      multiset(InFlight(u)) + multiset(queue) + multiset{r} + multiset(drawn);
      multiset(InFlight(u)) + multiset{r} + multiset(queue) + multiset(drawn);
      multiset(InFlight(slots)) + multiset(queue) + multiset(drawn);
      multiset(InFlight(slots) + queue + drawn);
    }
  }

  lemma BalancedDraw(launched: seq<Range>, slots: seq<Option<Job>>, queue: seq<Range>, drawn: seq<Range>)
    requires Balanced(launched, slots, queue, drawn)
    ensures Balanced(launched, slots, [], drawn + queue)
  {
    BalancedIsSameMultiset(launched, slots, queue, drawn);
    BalancedIsSameMultiset(launched, slots, [], drawn + queue);
    assert InFlight(slots) + [] + (drawn + queue) == InFlight(slots) + drawn + queue;
    assert multiset(InFlight(slots) + drawn + queue) == multiset(InFlight(slots) + queue + drawn);
  }

  /** The drawing step keeps the scheduling invariant: the queued ranges move to the drawn
      record unchanged. */
  lemma DrawnKeepsInv(s: TrackState, batchSize: nat)
    requires Inv(s, batchSize)
    ensures Inv(Drawn(s), batchSize)
  {
    BalancedDraw(s.surplus + s.issued, s.slots, s.rangesToDraw, s.drawn);
  }

  lemma LaunchedKeepsInv(s: TrackState, t: nat, maxIterations: int, batchSize: nat)
    requires Inv(s, batchSize) && t < |s.slots| && s.slots[t] == None && s.batch.hi < |s.points|
    ensures Inv(Launched(s, t, maxIterations, batchSize), batchSize)
  {
    var r := NextRange(s.batch, batchSize, |s.points|);
    CursorStep(s.issued, s.batch, |s.points|, batchSize);
    BalancedLaunch(s.surplus + s.issued, s.slots, s.rangesToDraw, s.drawn, t, Job(r, maxIterations));
    assert s.surplus + (s.issued + [r]) == s.surplus + s.issued + [r];
  }

  lemma FetchedKeepsInv(s: TrackState, t: nat, batchSize: nat)
    requires Inv(s, batchSize) && t < |s.slots| && s.slots[t].Some?
    ensures Inv(Fetched(s, t), batchSize)
  {
    BalancedFetch(s.surplus + s.issued, s.slots, s.rangesToDraw, s.drawn, t);
  }

  /** One polling turn keeps the scheduling invariant. */
  lemma PolledKeepsInv(s: TrackState, t: nat, ready: bool, maxIterations: int, batchSize: nat)
    requires Inv(s, batchSize) && t < |s.slots|
    ensures Inv(Polled(s, t, ready, maxIterations, batchSize), batchSize)
  {
    if s.slots[t].Some? {
      if ready {
        FetchedKeepsInv(s, t, batchSize);
        var f := Fetched(s, t);
        if f.batch.hi < |f.points| {
          LaunchedKeepsInv(f, t, maxIterations, batchSize);
        }
      }
    } else if s.batch.hi < |s.points| {
      LaunchedKeepsInv(s, t, maxIterations, batchSize);
    }
  }

  /** A whole polling pass keeps the scheduling invariant. */
  lemma {:induction false} PolledUpToKeepsInv(s: TrackState, ready: seq<bool>, maxIterations: int, batchSize: nat, k: nat)
    requires Inv(s, batchSize) && k <= |ready| == |s.slots|
    ensures Inv(PolledUpTo(s, ready, maxIterations, batchSize, k), batchSize)
  {
    if k > 0 {
      PolledUpToKeepsInv(s, ready, maxIterations, batchSize, k - 1);
      PolledKeepsInv(PolledUpTo(s, ready, maxIterations, batchSize, k - 1), k - 1, ready[k - 1], maxIterations, batchSize);
    }
  }

  // ----- What one polling turn does -----

  /** The three outcomes of a polling turn on slot t, and nothing else changes:
      a launched batch that is not ready is left alone; a ready one is fetched (its points
      computed, its range queued once) and the slot then holds the next range, or is empty
      when the cursor has reached the end; an empty slot gets the next range only if the
      cursor has not reached the end. No other slot changes, and the cursor never moves back. */
  lemma PolledOutcomes(s: TrackState, t: nat, ready: bool, maxIterations: int, batchSize: nat)
    requires t < |s.slots|
    ensures var r := Polled(s, t, ready, maxIterations, batchSize);
            && (forall u :: 0 <= u < |s.slots| && u != t ==> r.slots[u] == s.slots[u])
            && s.batch.hi <= r.batch.hi
            && (s.slots[t].Some? && !ready ==> r == s)
            && (s.slots[t].Some? && ready ==>
                  var job := s.slots[t].value;
                  && r.rangesToDraw == s.rangesToDraw + [job.range]
                  && r.points == ComputeRange(s.points, job.range, job.maxIterations)
                  && (r.slots[t] == None <==> s.batch.hi >= |s.points|))
            && (s.slots[t] == None ==>
                  && r.rangesToDraw == s.rangesToDraw && r.points == s.points
                  && (r.slots[t] == None <==> s.batch.hi >= |s.points|))
            && (r.slots[t] != s.slots[t] && r.slots[t].Some? ==>
                  && s.batch.hi < |s.points|
                  && r.batch == NextRange(s.batch, batchSize, |s.points|)
                  && r.slots[t] == Some(Job(r.batch, maxIterations)))
  {
  }

  /** Once the cursor has reached the end, no slot is given new work and the cursor stays. */
  lemma PolledAtEnd(s: TrackState, t: nat, ready: bool, maxIterations: int, batchSize: nat)
    requires t < |s.slots| && s.batch.hi >= |s.points|
    ensures var r := Polled(s, t, ready, maxIterations, batchSize);
            && r.batch == s.batch && r.issued == s.issued
            && (r.slots[t].Some? ==> r.slots[t] == s.slots[t])
  {
  }

  /** After a polling pass over slots 0 .. k-1, each of those slots is busy unless the cursor
      has reached the end: no thread is left idle while work remains. */
  lemma {:induction false} PolledUpToBusy(s: TrackState, ready: seq<bool>, maxIterations: int, batchSize: nat, k: nat)
    requires k <= |ready| == |s.slots|
    ensures var r := PolledUpTo(s, ready, maxIterations, batchSize, k);
            && s.batch.hi <= r.batch.hi
            && forall u :: 0 <= u < k && r.slots[u] == None ==> r.batch.hi >= |r.points|
  {
    if k > 0 {
      PolledUpToBusy(s, ready, maxIterations, batchSize, k - 1);
      var p := PolledUpTo(s, ready, maxIterations, batchSize, k - 1);
      PolledOutcomes(p, k - 1, ready[k - 1], maxIterations, batchSize);
    }
  }

  // ----- Resets -----

  /** Waiting for every future empties every slot; each batch still in flight finishes, so its
      points are computed, but no range is queued and the cursor does not move. */
  lemma DrainedAll(s: TrackState)
    ensures var d := DrainedUpTo(s, |s.slots|);
            && InFlight(d.slots) == []
            && d.batch == s.batch && d.rangesToDraw == s.rangesToDraw && d.drawn == s.drawn
  {
    var d := DrainedUpTo(s, |s.slots|);
    InFlightEmpty(d.slots);
    DrainedLogs(s, |s.slots|);
  }

  lemma {:induction false} DrainedLogs(s: TrackState, k: nat)
    requires k <= |s.slots|
    ensures DrainedUpTo(s, k).drawn == s.drawn && DrainedUpTo(s, k).issued == s.issued
  {
    if k > 0 {
      DrainedLogs(s, k - 1);
    }
  }

  /** After the wait and the rewind, the cursor is at the start, nothing is in flight or
      queued, and the scheduling invariant holds from scratch. */
  lemma ResetEstablishesInv(s: TrackState, batchSize: nat)
    requires batchSize > 0
    ensures var r := Rewound(DrainedUpTo(s, |s.slots|));
            && Inv(r, batchSize)
            && r.batch == ResetCursor && r.rangesToDraw == [] && InFlight(r.slots) == []
  {
    DrainedAll(s);
    var r := Rewound(DrainedUpTo(s, |s.slots|));
    InFlightEmpty(r.slots);
  }

  /** Point i lies in the range of a batch launched on one of slots 0 .. k-1. */
  predicate Covered(slots: seq<Option<Job>>, k: nat, i: int)
    requires k <= |slots|
  {
    exists u :: 0 <= u < k && slots[u].Some? && slots[u].value.range.lo <= i < slots[u].value.range.hi
  }

  /** Waiting for the futures changes only iteration counts, and only of points that a batch
      still in flight was computing: every other point is left exactly as it was. */
  lemma {:induction false} DrainedKeepsPoints(s: TrackState, k: nat)
    requires k <= |s.slots|
    ensures var d := DrainedUpTo(s, k);
            && (forall i :: 0 <= i < |s.points| ==>
                  d.points[i].coord == s.points[i].coord && d.points[i].gridPos == s.points[i].gridPos)
            && (forall i :: 0 <= i < |s.points| && !Covered(s.slots, k, i) ==> d.points[i] == s.points[i])
  {
    if k > 0 {
      DrainedKeepsPoints(s, k - 1);
      var p := DrainedUpTo(s, k - 1);
      assert p.slots[k - 1] == s.slots[k - 1];
      if p.slots[k - 1].Some? {
        ComputeRangeKeepsCells(p.points, p.slots[k - 1].value.range, p.slots[k - 1].value.maxIterations);
      }
      forall i | 0 <= i < |s.points| && !Covered(s.slots, k, i)
        ensures DrainedUpTo(s, k).points[i] == s.points[i]
      {
        assert !Covered(s.slots, k - 1, i);
      }
    }
  }

  /** recalcSamePoints on one track: wait for the futures, then rewind. The point array is
      left as the finished batches left it. */
  function AfterRecalc(s: TrackState): (r: TrackState)
    ensures |r.points| == |s.points| && |r.slots| == |s.slots|
    ensures r.batch == ResetCursor && r.drawIter == ResetCursor && r.rangesToDraw == [] && r.drawn == []
  {
    Rewound(DrainedUpTo(s, |s.slots|))
  }

  /** doNewCalc on one track: wait for the futures, write a fresh grid, then rewind. */
  function AfterNewCalc(s: TrackState, grid: seq<Point>): (r: TrackState)
    ensures r.points == grid && |r.slots| == |s.slots|
    ensures r.batch == ResetCursor && r.drawIter == ResetCursor && r.rangesToDraw == [] && r.drawn == []
  {
    AfterRecalc(s).(points := grid)
  }

  /** Both resets leave a track from which the schedule starts afresh: cursor at the start,
      nothing in flight, queued or drawn, and the scheduling invariant holding. recalcSamePoints
      keeps every cell, value c, and (outside the batches still in flight) iteration count. */
  lemma ResetsStartOver(s: TrackState, grid: seq<Point>, batchSize: nat)
    requires batchSize > 0 && |grid| == |s.points|
    ensures var r := AfterRecalc(s);
            && Inv(r, batchSize) && r.batch == ResetCursor && r.rangesToDraw == [] && InFlight(r.slots) == []
            && r.drawn == [] && r.surplus == []
            && (forall i :: 0 <= i < |s.points| ==>
                  r.points[i].coord == s.points[i].coord && r.points[i].gridPos == s.points[i].gridPos)
            && (forall i :: 0 <= i < |s.points| && !Covered(s.slots, |s.slots|, i) ==> r.points[i] == s.points[i])
    ensures var r := AfterNewCalc(s, grid);
            && Inv(r, batchSize) && r.batch == ResetCursor && r.rangesToDraw == [] && InFlight(r.slots) == []
            && r.drawn == [] && r.surplus == [] && r.points == grid
  {
    ResetEstablishesInv(s, batchSize);
    DrainedKeepsPoints(s, |s.slots|);
  }

  /** A polling pass draws nothing and launches no surplus: those records only change when
      the queue is drawn or the track is reset. */
  lemma {:induction false} PolledUpToKeepsLogs(s: TrackState, ready: seq<bool>, maxIterations: int, batchSize: nat, k: nat)
    requires k <= |ready| == |s.slots|
    ensures PolledUpTo(s, ready, maxIterations, batchSize, k).drawn == s.drawn
    ensures PolledUpTo(s, ready, maxIterations, batchSize, k).surplus == s.surplus
  {
    if k > 0 {
      PolledUpToKeepsLogs(s, ready, maxIterations, batchSize, k - 1);
    }
  }

  // ----- Start-up -----

  /** A list of slots all holding the same job has that job's range in flight once per slot. */
  lemma {:induction false} InFlightCopies(job: Job, k: nat)
    ensures InFlight(Copies(Some(job), k)) == Copies(job.range, k)
  {
    if k > 0 {
      assert Copies(Some(job), k)[1..] == Copies(Some(job), k - 1);
      InFlightCopies(job, k - 1);
    }
  }

  /** The start-up state satisfies the scheduling invariant, with numThreads - 1 surplus
      launches of the first range. */
  lemma StartupInv(points: seq<Point>, numThreads: nat, batchSize: nat, maxIterations: int)
    requires numThreads >= 1 && 0 < batchSize <= |points|
    ensures Inv(Startup(points, numThreads, batchSize, maxIterations), batchSize)
  {
    var s := Startup(points, numThreads, batchSize, maxIterations);
    var first := Range(0, batchSize);
    ScheduleStep(batchSize, |points|, ResetCursor);
    assert NextRange(ResetCursor, batchSize, |points|) == first;
    InFlightCopies(Job(first, maxIterations), numThreads);
    assert s.surplus + s.issued == Copies(first, numThreads);
    BalancedIsSameMultiset(s.surplus + s.issued, s.slots, s.rangesToDraw, s.drawn);
  }

  /** The start-up quirk: when the first k futures are ready at the first polling pass, the
      first range [0, batchSize) is queued for drawing k times. */
  lemma {:induction false} StartupQueuesFirstRangeRepeatedly(points: seq<Point>, numThreads: nat, batchSize: nat,
                                                            maxIterations: int, ready: seq<bool>, k: nat)
    requires numThreads >= 1 && |ready| == numThreads && k <= numThreads
    requires forall u :: 0 <= u < k ==> ready[u]
    ensures PolledUpTo(Startup(points, numThreads, batchSize, maxIterations), ready, maxIterations, batchSize, k).rangesToDraw
         == Copies(Range(0, batchSize), k)
  {
    if k > 0 {
      var s := Startup(points, numThreads, batchSize, maxIterations);
      StartupQueuesFirstRangeRepeatedly(points, numThreads, batchSize, maxIterations, ready, k - 1);
      var p := PolledUpTo(s, ready, maxIterations, batchSize, k - 1);
      assert p.slots[k - 1] == Some(Job(Range(0, batchSize), maxIterations));
      assert Copies(Range(0, batchSize), k - 1) + [Range(0, batchSize)] == Copies(Range(0, batchSize), k);
    }
  }

  // ----- A finished pass -----

  /** When the cursor has reached the end and nothing is in flight or queued, the drawn ranges
      are the whole schedule plus the surplus launches, each exactly once: the array's n
      points are drawn plus the surplus's points, and every point is drawn once more than the
      surplus covers it. After a reset (no surplus) every point is drawn exactly once. */
  lemma PassComplete(s: TrackState, batchSize: nat, p: int)
    requires Inv(s, batchSize) && s.batch.hi >= |s.points| && InFlight(s.slots) == [] && s.rangesToDraw == []
    ensures multiset(s.drawn) == multiset(s.surplus + Schedule(batchSize, |s.points|, ResetCursor))
    ensures Points(s.drawn) == Points(s.surplus) + |s.points|
    ensures Hits(s.drawn, p) == Hits(s.surplus, p) + (if 0 <= p < |s.points| then 1 else 0)
  {
    var n := |s.points|;
    var full := Schedule(batchSize, n, ResetCursor);
    assert s.issued == full;
    BalancedIsSameMultiset(s.surplus + s.issued, s.slots, s.rangesToDraw, s.drawn);
    assert [] + [] + s.drawn == s.drawn;
    PointsPermutation(s.drawn, s.surplus + full);
    PointsAppend(s.surplus, full);
    SchedulePoints(batchSize, n, ResetCursor);
    SumPermutation(s.drawn, s.surplus + full, (r: Range) => if r.lo <= p < r.hi then 1 else 0);
    SumAppend(s.surplus, full, (r: Range) => if r.lo <= p < r.hi then 1 else 0);
    ScheduleCoversOnce(batchSize, n, ResetCursor, p);
  }

  /** The points of the first i + 1 queued ranges. */
  lemma PointsStep(rs: seq<Range>, i: nat)
    requires i < |rs|
    ensures Points(rs[..i + 1]) == Points(rs[..i]) + (rs[i].hi - rs[i].lo)
  {
    PointsAppend(rs[..i], [rs[i]]);
    assert rs[..i + 1] == rs[..i] + [rs[i]];
  }

  /** The count of updated points after drawing a queue: each drawn range adds its
      length, in unsigned 32-bit arithmetic. */
  method TallyPoints(queue: seq<Range>, before: int) returns (updated: int)
    ensures updated == (before + Points(queue)) % U32
  {
    updated := before % U32;
    var i := 0;
    while i < |queue|
      invariant 0 <= i <= |queue|
      invariant updated == (before + Points(queue[..i])) % U32
    {
      var r := queue[i];
      PointsStep(queue, i);
      ModAddStep(before + Points(queue[..i]), r.hi - r.lo);
      updated := (updated + (r.hi - r.lo)) % U32;
      i := i + 1;
    }
    assert queue[..i] == queue;
  }

  /** One precision track: its point array, its future slots, its cursors and its queue. */
  class Track {
    const points: array<Point>
    const slots: array<Option<Job>>
    const batchSize: nat
    var batch: Range
    var drawIter: Range
    var rangesToDraw: seq<Range>
    ghost var issued: seq<Range>
    ghost var surplus: seq<Range>
    ghost var drawn: seq<Range>

    ghost function State(): TrackState
      reads this, points, slots
    {
      TrackState(points[..], slots[..], batch, drawIter, rangesToDraw, issued, surplus, drawn)
    }

    ghost predicate Valid()
      reads this, points, slots
    {
      WellFormed(State(), batchSize)
    }

    /** Start-up: the cursor is set to [0, batchSize) and numThreads batches are launched on
        it, all on the same range; nothing has been fetched or drawn yet. */
    constructor (pts: array<Point>, numThreads: nat, size: nat, maxIterations: int)
      requires numThreads >= 1 && 0 < size <= pts.Length
      ensures points == pts && fresh(slots) && batchSize == size
      ensures Valid() && State() == Startup(pts[..], numThreads, size, maxIterations)
      ensures Inv(State(), batchSize)
    {
      var first := Range(0, size);
      var futures := new Option<Job>[numThreads](_ => None);
      var t := 0;
      while t < numThreads
        invariant 0 <= t <= numThreads
        invariant forall u :: 0 <= u < t ==> futures[u] == Some(Job(first, maxIterations))
      {
        futures[t] := Some(Job(first, maxIterations));
        t := t + 1;
      }
      assert futures[..] == Copies(Some(Job(first, maxIterations)), numThreads);
      points := pts;
      batchSize := size;
      slots := futures;
      batch := first;
      drawIter := ResetCursor;
      rangesToDraw := [];
      issued := [first];
      surplus := Copies(first, numThreads - 1);
      drawn := [];
      StartupInv(pts[..], numThreads, size, maxIterations);
    }

    /** std::async(msetBatch, batchIter, maxIterations) on slot t, after moving the cursor on. */
    method Launch(t: nat, maxIterations: int)
      requires Valid() && t < slots.Length && batch.hi < points.Length
      modifies this, slots
      ensures Valid() && State() == Launched(old(State()), t, maxIterations, batchSize)
    {
      batch := NextRange(batch, batchSize, points.Length);
      slots[t] := Some(Job(batch, maxIterations));
      issued := issued + [batch];
    }

    /** One turn of the polling loop for slot t. */
    method PollSlot(t: nat, ready: bool, maxIterations: int)
      requires Valid() && t < slots.Length
      modifies this, points, slots
      ensures Valid() && State() == Polled(old(State()), t, ready, maxIterations, batchSize)
    {
      match slots[t]
      case Some(job) =>
        if ready {
          var range := MsetBatch(points, job.range, job.maxIterations);
          drawIter := range;
          rangesToDraw := rangesToDraw + [drawIter];
          slots[t] := None;
          if batch.hi < points.Length {
            Launch(t, maxIterations);
          }
        }
      case None =>
        if batch.hi < points.Length {
          Launch(t, maxIterations);
        }
    }

    /** The polling loop: every slot in order, with ready[t] telling whether future t is ready. */
    method Poll(ready: seq<bool>, maxIterations: int)
      requires Valid() && |ready| == slots.Length
      modifies this, points, slots
      ensures Valid() && State() == PolledUpTo(old(State()), ready, maxIterations, batchSize, |ready|)
      ensures Inv(old(State()), batchSize) ==> Inv(State(), batchSize)
      ensures drawn == old(drawn) && surplus == old(surplus)
    {
      var t := 0;
      while t < slots.Length
        invariant 0 <= t <= slots.Length
        invariant Valid()
        invariant State() == PolledUpTo(old(State()), ready, maxIterations, batchSize, t)
      {
        PollSlot(t, ready[t], maxIterations);
        t := t + 1;
      }
      if Inv(old(State()), batchSize) {
        PolledUpToKeepsInv(old(State()), ready, maxIterations, batchSize, |ready|);
      }
      PolledUpToKeepsLogs(old(State()), ready, maxIterations, batchSize, |ready|);
    }

    /** The waiting loop of both resets: get() every valid future and drop its range. */
    method Drain()
      requires Valid()
      modifies points, slots
      ensures Valid() && State() == DrainedUpTo(old(State()), slots.Length)
    {
      var t := 0;
      while t < slots.Length
        invariant 0 <= t <= slots.Length
        invariant Valid()
        invariant State() == DrainedUpTo(old(State()), t)
      {
        if slots[t].Some? {
          var job := slots[t].value;
          var _ := MsetBatch(points, job.range, job.maxIterations);
          slots[t] := None;
        }
        t := t + 1;
      }
    }

    /** The cursor and drawing resets of both reset blocks. */
    method Rewind()
      requires Valid()
      modifies this
      ensures Valid() && State() == Rewound(old(State()))
    {
      batch := ResetCursor;
      drawIter := ResetCursor;
      rangesToDraw := [];
      issued, surplus, drawn := [], [], [];
    }

    /** The drawing step for this track: every queued range is drawn, its length is added to
        the frame's unsigned counter numPointsUpdated, and the queue is cleared. */
    method Draw(updatedBefore: int) returns (updated: int)
      requires Valid() && 0 <= updatedBefore < U32
      modifies this
      ensures Valid() && State() == Drawn(old(State()))
      ensures updated == (updatedBefore + Points(old(rangesToDraw))) % U32
      ensures Inv(old(State()), batchSize) ==> Inv(State(), batchSize)
      ensures drawn == old(drawn) + old(rangesToDraw) && surplus == old(surplus) && rangesToDraw == []
    {
      updated := TallyPoints(rangesToDraw, updatedBefore);
      if Inv(State(), batchSize) {
        DrawnKeepsInv(State(), batchSize);
      }
      drawn := drawn + rangesToDraw;
      rangesToDraw := [];
    }
  }
}
