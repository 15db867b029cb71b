/** Order statistics on real-valued samples, as pandas computes them for a
    column: sorting, the linear-interpolation quantile (Hyndman and Fan
    type 7, pandas' default) and the median. */
module Stats {

  predicate Sorted(s: seq<real>) {
    forall i, j :: 0 <= i < j < |s| ==> s[i] <= s[j]
  }

  function Insert(x: real, s: seq<real>): (r: seq<real>)
    requires Sorted(s)
    ensures Sorted(r)
    ensures multiset(r) == multiset(s) + multiset{x}
    ensures |r| == |s| + 1
    ensures r[0] == x || (|s| > 0 && r[0] == s[0])
  {
    if s == [] || x <= s[0] then
      [x] + s
    else
      assert s == [s[0]] + s[1..];
      [s[0]] + Insert(x, s[1..])
  }

  /** The sample in ascending order. */
  function Sort(s: seq<real>): (r: seq<real>)
    ensures Sorted(r)
    ensures multiset(r) == multiset(s)
    ensures |r| == |s|
  {
    if s == [] then []
    else
      assert s == [s[0]] + s[1..];
      Insert(s[0], Sort(s[1..]))
  }

  /** The fractional position of the p-quantile among n sorted values. */
  function Rank(n: nat, p: real): (h: real)
    requires n > 0 && 0.0 <= p <= 1.0
    ensures 0.0 <= h <= (n - 1) as real
  {
    var m := (n - 1) as real;
    ProductNonnegative(m, p);
    ProductNonnegative(m, 1.0 - p);
    assert m * (1.0 - p) == m - m * p;
    m * p
  }

  lemma ProductNonnegative(a: real, b: real)
    requires a >= 0.0 && b >= 0.0
    ensures a * b >= 0.0
  {
  }

  /** Linear interpolation at fractional position h of a sequence. */
  function Interpolate(s: seq<real>, h: real): real
    requires |s| > 0 && 0.0 <= h <= (|s| - 1) as real
  {
    var k := h.Floor;
    if k + 1 < |s| then s[k] + (h - k as real) * (s[k + 1] - s[k]) else s[k]
  }

  /** The p-quantile of a sorted sample, by linear interpolation between
      the two closest ranks. */
  function Quantile(s: seq<real>, p: real): (q: real)
    requires |s| > 0 && 0.0 <= p <= 1.0
    ensures p == 0.0 ==> q == s[0]
    ensures p == 1.0 ==> q == s[|s| - 1]
  {
    Interpolate(s, Rank(|s|, p))
  }

  /** The median in its textbook form: the middle value, or the mean of the
      two middle values. */
  function Median(s: seq<real>): (m: real)
    requires |s| > 0
    ensures Sorted(s) ==> s[(|s| - 1) / 2] <= m <= s[|s| / 2]
  {
    if |s| % 2 == 1 then s[|s| / 2] else (s[|s| / 2 - 1] + s[|s| / 2]) / 2.0
  }

  lemma InterpolateBetween(s: seq<real>, h: real)
    requires |s| > 0 && Sorted(s) && 0.0 <= h <= (|s| - 1) as real
    ensures 0 <= h.Floor < |s|
    ensures s[h.Floor] <= Interpolate(s, h)
    ensures h.Floor + 1 < |s| ==> Interpolate(s, h) <= s[h.Floor + 1]
  {
    var k := h.Floor;
    if k + 1 < |s| {
      var f := h - k as real;
      assert 0.0 <= f < 1.0;
      assert s[k] <= s[k + 1];
      var d := s[k + 1] - s[k];
      ProductNonnegative(1.0 - f, d);
      ProductNonnegative(f, d);
      assert (1.0 - f) * d == d - f * d;
    }
  }

  lemma InterpolateMonotone(s: seq<real>, h1: real, h2: real)
    requires |s| > 0 && Sorted(s)
    requires 0.0 <= h1 <= h2 <= (|s| - 1) as real
    ensures Interpolate(s, h1) <= Interpolate(s, h2)
  {
    InterpolateBetween(s, h1);
    InterpolateBetween(s, h2);
    var k1, k2 := h1.Floor, h2.Floor;
    if k1 == k2 {
      if k1 + 1 < |s| {
        var d := s[k1 + 1] - s[k1];
        ProductNonnegative(h2 - h1, d);
        assert (h2 - h1) * d == h2 * d - h1 * d;
      }
    } else {
      assert k1 < k2;
      assert s[k1 + 1] <= s[k2];
    }
  }

  /** Quantiles of a sorted sample grow with p; in particular Q1 <= Q3. */
  lemma {:induction false} QuantileMonotone(s: seq<real>, p: real, q: real)
    requires |s| > 0 && Sorted(s) && 0.0 <= p <= q <= 1.0
    ensures Quantile(s, p) <= Quantile(s, q)
  {
    var m := (|s| - 1) as real;
    ProductNonnegative(m, q - p);
    assert m * (q - p) == m * q - m * p;
    InterpolateMonotone(s, Rank(|s|, p), Rank(|s|, q));
  }

  /** Every quantile of a sorted sample lies between its least and greatest
      value. */
  lemma {:induction false} QuantileWithinRange(s: seq<real>, p: real)
    requires |s| > 0 && Sorted(s) && 0.0 <= p <= 1.0
    ensures s[0] <= Quantile(s, p) <= s[|s| - 1]
  {
    QuantileMonotone(s, 0.0, p);
    QuantileMonotone(s, p, 1.0);
    assert Rank(|s|, 1.0) == (|s| - 1) as real;
    assert Rank(|s|, 1.0).Floor == |s| - 1;
  }

  /** A sample whose values are all equal has that value as every quantile. */
  lemma {:induction false} QuantileOfConstant(s: seq<real>, p: real, c: real)
    requires |s| > 0 && 0.0 <= p <= 1.0
    requires forall i :: 0 <= i < |s| ==> s[i] == c
    ensures Quantile(s, p) == c
  {
    var h := Rank(|s|, p);
    assert 0 <= h.Floor < |s|;
  }

  /** The textbook median is the type-7 quantile at p = 0.5. */
  lemma {:induction false} MedianIsHalfQuantile(s: seq<real>)
    requires |s| > 0
    ensures Median(s) == Quantile(s, 0.5)
  {
    var n := |s|;
    var h := Rank(n, 0.5);
    assert h == (n - 1) as real / 2.0;
    if n % 2 == 1 {
      assert h == (n / 2) as real;
      assert h.Floor == n / 2;
    } else {
      assert h == (n / 2 - 1) as real + 0.5;
      assert h.Floor == n / 2 - 1;
    }
  }

  /** Sorting a sample whose values are all equal leaves them all equal. */
  lemma {:induction false} SortOfConstant(s: seq<real>, c: real)
    requires forall i :: 0 <= i < |s| ==> s[i] == c
    ensures forall i :: 0 <= i < |Sort(s)| ==> Sort(s)[i] == c
  {
    var r := Sort(s);
    forall i | 0 <= i < |r| ensures r[i] == c {
      assert r[i] in multiset(r);
      assert r[i] in multiset(s);
      assert r[i] in s;
    }
  }

  /** Every value of the sorted sample comes from the sample, and the first
      and last sorted values are its least and greatest values. */
  lemma {:induction false} SortEnds(s: seq<real>)
    requires |s| > 0
    ensures Sort(s)[0] in s && Sort(s)[|s| - 1] in s
    ensures forall i :: 0 <= i < |s| ==> Sort(s)[0] <= s[i] <= Sort(s)[|s| - 1]
  {
    var r := Sort(s);
    assert r[0] in multiset(s);
    assert r[|s| - 1] in multiset(s);
    forall i | 0 <= i < |s| ensures r[0] <= s[i] <= r[|s| - 1] {
      assert s[i] in multiset(r);
      var j :| 0 <= j < |r| && r[j] == s[i];
    }
  }
}
