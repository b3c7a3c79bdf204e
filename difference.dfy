/**
 * The difference analyser: for a pair of precision tracks it writes, pixel by
 * pixel, how many more iterations the second track needed than the first
 * (differentPixels*), counts the pixels where the two disagree, and keeps the
 * smallest and largest difference, both starting from 0. Which pair is compared
 * is chosen by the display screen.
 */
module Difference {
  import opened Grid

  /** The per-pixel differences b[i].iterations - a[i].iterations. */
  function Deltas(a: seq<Point>, b: seq<Point>): (d: seq<int>)
    requires |a| == |b|
    ensures |d| == |a|
    ensures forall i :: 0 <= i < |d| ==> d[i] == b[i].iterations - a[i].iterations
  {
    seq(|a|, i requires 0 <= i < |a| => b[i].iterations - a[i].iterations)
  }

  /** How many entries of d are non-zero, counted from the front as the loop does. */
  function CountNonZero(d: seq<int>): (n: nat)
    ensures n <= |d|
  {
    if d == [] then 0
    else CountNonZero(d[..|d| - 1]) + (if d[|d| - 1] != 0 then 1 else 0)
  }

  /** The positions where d is non-zero. */
  function NonZeroAt(d: seq<int>): set<int>
  {
    set i | 0 <= i < |d| && d[i] != 0
  }

  /** The counter equals the number of positions with a non-zero difference. */
  lemma {:induction false} CountNonZeroIsCardinality(d: seq<int>)
    ensures CountNonZero(d) == |NonZeroAt(d)|
  {
    if d != [] {
      var p := d[..|d| - 1];
      var k := |d| - 1;
      CountNonZeroIsCardinality(p);
      assert NonZeroAt(p) == set i | 0 <= i < k && d[i] != 0;
      if d[k] != 0 {
        assert NonZeroAt(d) == NonZeroAt(p) + {k};
        assert k !in NonZeroAt(p);
      } else {
        assert NonZeroAt(d) == NonZeroAt(p);
      }
    }
  }

  /** No pixel differs exactly when the counter is 0; it never exceeds the pixel count. */
  lemma {:induction false} CountNonZeroBounds(d: seq<int>)
    ensures CountNonZero(d) <= |d|
    ensures CountNonZero(d) == 0 <==> forall i :: 0 <= i < |d| ==> d[i] == 0
  {
    if d != [] {
      var p := d[..|d| - 1];
      CountNonZeroBounds(p);
      assert forall i :: 0 <= i < |p| ==> p[i] == d[i];
    }
  }

  /** Comparing a track with itself, or two tracks holding the same counts, finds nothing. */
  lemma SameCountsNoDifference(a: seq<Point>, b: seq<Point>)
    requires |a| == |b|
    requires forall i :: 0 <= i < |a| ==> a[i].iterations == b[i].iterations
    ensures CountNonZero(Deltas(a, b)) == 0
  {
    CountNonZeroBounds(Deltas(a, b));
  }

  /** Swapping the two tracks negates every difference and keeps the counter. */
  lemma SwapNegates(a: seq<Point>, b: seq<Point>)
    requires |a| == |b|
    ensures forall i :: 0 <= i < |a| ==> Deltas(b, a)[i] == -Deltas(a, b)[i]
    ensures CountNonZero(Deltas(b, a)) == CountNonZero(Deltas(a, b))
  {
    var d, e := Deltas(a, b), Deltas(b, a);
    CountNonZeroIsCardinality(d);
    CountNonZeroIsCardinality(e);
    assert NonZeroAt(d) == NonZeroAt(e);
  }

  /** The difference loop: out[i] := b[i] - a[i] for every pixel (0 where they agree),
      counting the non-zero ones; min and max start at 0 and follow every non-zero value. */
  method ComputeDifference(a: seq<Point>, b: seq<Point>, out: array<int>) returns (counter: int, min: int, max: int)
    requires |a| == |b| == out.Length
    modifies out
    ensures out[..] == Deltas(a, b)
    ensures counter == |NonZeroAt(out[..])|
    ensures min <= 0 <= max
    ensures forall i :: 0 <= i < out.Length ==> min <= out[i] <= max
    ensures min == 0 || exists i :: 0 <= i < out.Length && out[i] == min
    ensures max == 0 || exists i :: 0 <= i < out.Length && out[i] == max
  {
    counter, min, max := 0, 0, 0;
    var i := 0;
    while i < out.Length
      invariant 0 <= i <= out.Length
      invariant out[..i] == Deltas(a, b)[..i]
      invariant counter == CountNonZero(out[..i])
      invariant min <= 0 <= max
      invariant forall j :: 0 <= j < i ==> min <= out[j] <= max
      invariant min == 0 || exists j :: 0 <= j < i && out[j] == min
      invariant max == 0 || exists j :: 0 <= j < i && out[j] == max
    {
      var pixeldiff := b[i].iterations - a[i].iterations;
      if pixeldiff == 0 {
        out[i] := 0;
      } else {
        counter := counter + 1;
        if pixeldiff > max {
          max := pixeldiff;
        }
        if pixeldiff < min {
          min := pixeldiff;
        }
        out[i] := pixeldiff;
      }
      assert out[..i + 1][..i] == out[..i];
      i := i + 1;
    }
    assert out[..i] == out[..];
    CountNonZeroIsCardinality(out[..]);
  }

  /** What the difference block does for a display screen. */
  datatype Dispatch =
    | Compare(minuend: nat, subtrahend: nat)  // differentPixels<minuend>M<subtrahend>, tracks numbered 1..3
    | Wait                                     // the request stays pending
    | Invalid                                  // the request is dropped and screen 1 shown

  /** Screens 4 and 7 compare track 2 with track 1, 5 compares 3 with 1, 6 compares 3 with 2;
      on screens 1 and 8 the request waits; any other screen is an error. */
  function DispatchFor(screen: int): (d: Dispatch)
    ensures d.Compare? ==> 1 <= d.subtrahend < d.minuend <= 3
  {
    if screen == 4 || screen == 7 then Compare(2, 1)
    else if screen == 5 then Compare(3, 1)
    else if screen == 6 then Compare(3, 2)
    else if screen == 1 || screen == 8 then Wait
    else Invalid
  }

  /** Every comparison subtracts a lower-precision track from a higher-precision one, and a
      request waits only on screens 1 and 8 (7 is taken by the first branch). */
  lemma DispatchCases(screen: int)
    ensures DispatchFor(screen).Compare? <==> 4 <= screen <= 7
    ensures DispatchFor(screen).Compare? ==>
              1 <= DispatchFor(screen).subtrahend < DispatchFor(screen).minuend <= 3
    ensures DispatchFor(screen) == Wait <==> screen in {1, 8}
  {
  }
}
