/**
 * The batch cursor of one precision track (batchIter_*): the range handed to the
 * last launched batch. A new batch starts where the cursor ends and is at most
 * batchSize points long, clipped to the end of the point array. Schedule lists
 * every range the cursor hands out from a given position until the array is used up.
 */
module Batches {
  import opened Kernel

  /** One launched msetBatch call: the range it computes and the bound it was given. */
  datatype Job = Job(range: Range, maxIterations: int)

  function Min(a: int, b: int): int
  {
    if a <= b then a else b
  }

  /** The range assigned to an idle slot when endIter < end: it starts at the cursor's
      end and runs batchSize points further, or to the end of the array. */
  function NextRange(cursor: Range, batchSize: nat, n: nat): (r: Range)
    requires cursor.hi < n
    ensures r.lo == cursor.hi && r.lo <= r.hi <= n
    ensures r.hi - r.lo == Min(batchSize, n - cursor.hi)
  {
    Range(cursor.hi, if cursor.hi + batchSize > n then n else cursor.hi + batchSize)
  }

  /** Every range the cursor hands out, in order, from its current position until its end
      reaches n. */
  function Schedule(batchSize: nat, n: nat, cursor: Range): (s: seq<Range>)
    requires batchSize > 0
    decreases n - cursor.hi
    ensures s == [] <==> cursor.hi >= n
    ensures forall i :: 0 <= i < |s| ==> cursor.hi <= s[i].lo < s[i].hi <= n
  {
    if cursor.hi >= n then []
    else [NextRange(cursor, batchSize, n)] + Schedule(batchSize, n, NextRange(cursor, batchSize, n))
  }

  /** The cursor as both resets leave it: [begin, begin). */
  const ResetCursor: Range := Range(0, 0)

  /** The sum of f over a list of ranges. */
  function Sum(rs: seq<Range>, f: Range -> int): int
  {
    if rs == [] then 0 else f(rs[0]) + Sum(rs[1..], f)
  }

  /** Total number of points in a list of ranges. */
  function Points(rs: seq<Range>): int
  {
    if rs == [] then 0 else (rs[0].hi - rs[0].lo) + Points(rs[1..])
  }

  /** Points is the sum of the ranges' lengths. */
  lemma {:induction false} PointsIsSum(rs: seq<Range>)
    ensures Points(rs) == Sum(rs, (r: Range) => r.hi - r.lo)
  {
    if rs != [] {
      PointsIsSum(rs[1..]);
    }
  }

  /** The ranges handed out are non-empty, no longer than a batch, clipped to n, and
      contiguous: the first starts at the cursor's end, each starts where the previous one
      ends, and the last ends at n. */
  lemma {:induction false} ScheduleContiguous(batchSize: nat, n: nat, cursor: Range)
    requires batchSize > 0
    ensures var s := Schedule(batchSize, n, cursor);
            && (forall i :: 0 <= i < |s| ==> s[i].lo < s[i].hi <= n && s[i].hi - s[i].lo <= batchSize)
            && (forall i :: 0 <= i < |s| - 1 ==> s[i].hi == s[i + 1].lo)
            && (s != [] <==> cursor.hi < n)
            && (s != [] ==> s[0].lo == cursor.hi && s[|s| - 1].hi == n)
            && (forall i :: 0 <= i < |s| - 1 ==> s[i].hi - s[i].lo == batchSize)
    decreases n - cursor.hi
  {
    if cursor.hi < n {
      ScheduleContiguous(batchSize, n, NextRange(cursor, batchSize, n));
    }
  }

  /** How many of the ranges contain point p. */
  function Hits(rs: seq<Range>, p: int): int
  {
    Sum(rs, (r: Range) => if r.lo <= p < r.hi then 1 else 0)
  }

  /** Coverage exactly once: every point from the cursor's end up to n lies in exactly one
      handed-out range, and no other point lies in any. */
  lemma {:induction false} ScheduleCoversOnce(batchSize: nat, n: nat, cursor: Range, p: int)
    requires batchSize > 0
    ensures Hits(Schedule(batchSize, n, cursor), p) == if cursor.hi <= p < n then 1 else 0
    decreases n - cursor.hi
  {
    if cursor.hi < n {
      var next := NextRange(cursor, batchSize, n);
      ScheduleCoversOnce(batchSize, n, next, p);
      assert Schedule(batchSize, n, cursor)[1..] == Schedule(batchSize, n, next);
    }
  }

  /** The handed-out ranges hold n - cursor.hi points in all: from a reset cursor, the
      whole array once. */
  lemma {:induction false} SchedulePoints(batchSize: nat, n: nat, cursor: Range)
    requires batchSize > 0 && cursor.hi <= n
    ensures Points(Schedule(batchSize, n, cursor)) == n - cursor.hi
    decreases n - cursor.hi
  {
    if cursor.hi < n {
      var next := NextRange(cursor, batchSize, n);
      SchedulePoints(batchSize, n, next);
      assert Schedule(batchSize, n, cursor)[1..] == Schedule(batchSize, n, next);
    }
  }

  /** Handing out one range moves the cursor onto that range: the rest of the schedule is
      the schedule from the new cursor. */
  lemma ScheduleStep(batchSize: nat, n: nat, cursor: Range)
    requires batchSize > 0 && cursor.hi < n
    ensures Schedule(batchSize, n, cursor)
         == [NextRange(cursor, batchSize, n)] + Schedule(batchSize, n, NextRange(cursor, batchSize, n))
  {
  }

  /** Ranges are disjoint: two different positions of the schedule share no point. */
  lemma ScheduleDisjoint(batchSize: nat, n: nat, cursor: Range, i: int, j: int, p: int)
    requires batchSize > 0
    requires 0 <= i < j < |Schedule(batchSize, n, cursor)|
    ensures var s := Schedule(batchSize, n, cursor);
            !(s[i].lo <= p < s[i].hi && s[j].lo <= p < s[j].hi)
  {
    var s := Schedule(batchSize, n, cursor);
    ScheduleContiguous(batchSize, n, cursor);
    OrderedRanges(s, i, j);
  }

  /** In a contiguous list of non-empty ranges, a later range starts at or after the end of
      an earlier one. */
  lemma {:induction false} OrderedRanges(s: seq<Range>, i: int, j: int)
    requires forall k :: 0 <= k < |s| - 1 ==> s[k].hi == s[k + 1].lo
    requires forall k :: 0 <= k < |s| ==> s[k].lo < s[k].hi
    requires 0 <= i < j < |s|
    ensures s[i].hi <= s[j].lo
    decreases j - i
  {
    if j > i + 1 {
      OrderedRanges(s, i + 1, j);
    }
  }

  /** A concrete schedule: 100 points in batches of 30 go out as [0,30), [30,60),
      [60,90) and the clipped [90,100). */
  lemma HundredInThirties()
    ensures Schedule(30, 100, ResetCursor)
         == [Range(0, 30), Range(30, 60), Range(60, 90), Range(90, 100)]
  {
  }

  /** Once the cursor has reached the end nothing more is handed out. */
  lemma ScheduleDone(batchSize: nat, n: nat, cursor: Range)
    requires batchSize > 0 && cursor.hi >= n
    ensures Schedule(batchSize, n, cursor) == []
  {
  }

  /** Sum distributes over concatenation. */
  lemma {:induction false} SumAppend(a: seq<Range>, b: seq<Range>, f: Range -> int)
    ensures Sum(a + b, f) == Sum(a, f) + Sum(b, f)
  {
    if a != [] {
      assert (a + b)[0] == a[0];
      assert (a + b)[1..] == a[1..] + b;
      SumAppend(a[1..], b, f);
      calc {
        Sum(a + b, f);
        f(a[0]) + Sum(a[1..] + b, f);
        f(a[0]) + Sum(a[1..], f) + Sum(b, f);
      }
    } else {
      assert a + b == b;
    }
  }

  /** Taking out the range at position i takes one copy of it out of the multiset. */
  lemma MultisetRemove(b: seq<Range>, i: nat)
    requires i < |b|
    ensures multiset(b[..i] + b[i + 1..]) == multiset(b) - multiset{b[i]}
  {
    assert b == b[..i] + [b[i]] + b[i + 1..];
    assert multiset(b) == multiset(b[..i]) + multiset{b[i]} + multiset(b[i + 1..]);
  }

  /** The sum with the range at position i taken out and added back separately. */
  lemma SumRemove(b: seq<Range>, i: nat, f: Range -> int)
    requires i < |b|
    ensures Sum(b, f) == f(b[i]) + Sum(b[..i] + b[i + 1..], f)
  {
    assert b == b[..i] + [b[i]] + b[i + 1..];
    SumAppend(b[..i] + [b[i]], b[i + 1..], f);
    SumAppend(b[..i], [b[i]], f);
    SumAppend(b[..i], b[i + 1..], f);
    assert Sum([b[i]], f) == f(b[i]) + Sum([], f);
  }

  /** A sum over ranges does not depend on their order: lists with the same multiset of
      ranges have the same number of points and hit every point equally often. */
  lemma {:induction false} SumPermutation(a: seq<Range>, b: seq<Range>, f: Range -> int)
    requires multiset(a) == multiset(b)
    ensures Sum(a, f) == Sum(b, f)
    decreases |a|
  {
    if a != [] {
      assert a[0] in multiset(a);
      var i :| 0 <= i < |b| && b[i] == a[0];
      assert a == [a[0]] + a[1..];
      assert multiset(a[1..]) == multiset(a) - multiset{a[0]};
      MultisetRemove(b, i);
      SumPermutation(a[1..], b[..i] + b[i + 1..], f);
      SumRemove(b, i, f);
    } else {
      assert |multiset(b)| == 0;
    }
  }

  /** The points of two lists of ranges add up. */
  lemma PointsAppend(a: seq<Range>, b: seq<Range>)
    ensures Points(a + b) == Points(a) + Points(b)
  {
    PointsIsSum(a);
    PointsIsSum(b);
    PointsIsSum(a + b);
    SumAppend(a, b, (r: Range) => r.hi - r.lo);
  }

  /** Lists with the same multiset of ranges have the same number of points. */
  lemma PointsPermutation(a: seq<Range>, b: seq<Range>)
    requires multiset(a) == multiset(b)
    ensures Points(a) == Points(b)
  {
    PointsIsSum(a);
    PointsIsSum(b);
    SumPermutation(a, b, (r: Range) => r.hi - r.lo);
  }

  /** k copies of a range hold k times its points. */
  lemma PointsCopies(r: Range, k: nat)
    ensures Points(Copies(r, k)) == k * (r.hi - r.lo)
  {
    PointsIsSum(Copies(r, k));
    SumCopies(r, k, (r: Range) => r.hi - r.lo);
  }

  /** k copies of one value: a range launched k times, or k slots holding the same job. */
  function Copies<T>(x: T, k: nat): (s: seq<T>)
    ensures |s| == k && forall i :: 0 <= i < k ==> s[i] == x
  {
    seq(k, _ => x)
  }

  /** k copies of a range hold k times its points, and hit each of its points k times. */
  lemma {:induction false} SumCopies(r: Range, k: nat, f: Range -> int)
    ensures Sum(Copies(r, k), f) == k * f(r)
  {
    if k > 0 {
      assert Copies(r, k)[1..] == Copies(r, k - 1);
      SumCopies(r, k - 1, f);
    }
  }
}
