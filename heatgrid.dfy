/**
 * Helpers shared by the two 20x20 heatmaps: where row and column samples
 * fall in a domain, and the reversal of the row order (a pure function on
 * sequences).
 */
module HeatGrid {
  import opened Constants
  import opened Numeric

  /** Samples per axis. */
  const GridSize: nat := 20

  /** The `k`-th of 20 evenly spaced samples across `d`, both ends included. */
  function SampleAt(d: Domain, k: nat): (v: real)
    ensures k == 0 ==> v == d.lo
    ensures k == 19 ==> v == d.hi
    ensures d.lo <= d.hi && k <= 19 ==> d.lo <= v <= d.hi
  {
    ScaleWithin(d.hi - d.lo, k as real / 19.0);
    d.lo + (d.hi - d.lo) * (k as real / 19.0)
  }

  /** A fraction in [0, 1] of a non-negative width stays within that width. */
  lemma ScaleWithin(w: real, t: real)
    ensures 0.0 <= w && 0.0 <= t <= 1.0 ==> 0.0 <= w * t <= w
  {
    if 0.0 <= w && 0.0 <= t <= 1.0 {
      assert w - w * t == w * (1.0 - t);
    }
  }

  /** Samples are strictly increasing along a non-degenerate domain. */
  lemma SampleIncreasing(d: Domain, k: nat, m: nat)
    requires d.lo < d.hi && k < m
    ensures SampleAt(d, k) < SampleAt(d, m)
  {
    var w, a, b := d.hi - d.lo, k as real / 19.0, m as real / 19.0;
    calc {
      SampleAt(d, k);
    ==
      d.lo + w * a;
    < { MulStrictlyIncreasing(w, a, b); }
      d.lo + w * b;
    ==
      SampleAt(d, m);
    }
  }

  /** Array `reverse()`: the element at `k` comes from position `|s| - 1 - k`. */
  function Reversed<T>(s: seq<T>): (r: seq<T>)
    ensures |r| == |s|
  {
    seq(|s|, k requires 0 <= k < |s| => s[|s| - 1 - k])
  }

  /** Reversing twice restores the original order. */
  lemma ReversedTwice<T>(s: seq<T>)
    ensures Reversed(Reversed(s)) == s
  {
  }

  /** A grid of `rows` rows, each holding `cols` cells. */
  ghost predicate IsGrid<T>(g: seq<seq<T>>, rows: nat, cols: nat)
  {
    |g| == rows && forall k :: 0 <= k < |g| ==> |g[k]| == cols
  }
}
