/** `median_filter_1d` (api/analyze.py:79-84): the running median used to
    smooth the voiced pitch track before its statistics are taken. */
module Median {
  import opened Sorting

  function Id(v: real): real { v }

  /** The number of entries of `s` strictly above `t`. */
  function CountAbove(s: seq<real>, t: real): (n: nat)
    ensures n <= |s|
  {
    if s == [] then 0 else (if s[0] > t then 1 else 0) + CountAbove(s[1..], t)
  }

  /** The number of entries of `s` strictly below `t`. */
  function CountBelow(s: seq<real>, t: real): (n: nat)
    ensures n <= |s|
  {
    if s == [] then 0 else (if s[0] < t then 1 else 0) + CountBelow(s[1..], t)
  }

  /** The number of entries of `s` equal to `c`. */
  function CountEq(s: seq<real>, c: real): (n: nat)
    ensures n <= |s|
  {
    if s == [] then 0 else (if s[0] == c then 1 else 0) + CountEq(s[1..], c)
  }

  lemma {:induction false} CountsConcat(a: seq<real>, b: seq<real>, t: real)
    ensures CountAbove(a + b, t) == CountAbove(a, t) + CountAbove(b, t)
    ensures CountBelow(a + b, t) == CountBelow(a, t) + CountBelow(b, t)
  {
    if a == [] {
      assert a + b == b;
    } else {
      assert (a + b)[1..] == a[1..] + b;
      CountsConcat(a[1..], b, t);
    }
  }

  /** Removing the entry at `k` removes its contribution to each count. */
  lemma CountsRemove(p: seq<real>, k: nat, t: real)
    requires k < |p|
    ensures CountAbove(p, t) == CountAbove(p[..k] + p[k + 1..], t) + (if p[k] > t then 1 else 0)
    ensures CountBelow(p, t) == CountBelow(p[..k] + p[k + 1..], t) + (if p[k] < t then 1 else 0)
    ensures multiset(p[..k] + p[k + 1..]) == multiset(p) - multiset{p[k]}
  {
    assert p == p[..k] + ([p[k]] + p[k + 1..]);
    CountsConcat(p[..k], [p[k]] + p[k + 1..], t);
    assert ([p[k]] + p[k + 1..])[1..] == p[k + 1..];
    CountsConcat(p[..k], p[k + 1..], t);
  }

  /** Counting does not depend on the order of the entries. */
  lemma {:induction false} CountsPermutation(s: seq<real>, p: seq<real>, t: real)
    requires multiset(s) == multiset(p)
    ensures CountAbove(s, t) == CountAbove(p, t)
    ensures CountBelow(s, t) == CountBelow(p, t)
  {
    if s == [] {
      assert |p| == |multiset(p)| == 0;
    } else {
      var x := s[0];
      assert x in multiset(p);
      var k :| 0 <= k < |p| && p[k] == x;
      var rest := p[..k] + p[k + 1..];
      CountsRemove(p, k, t);
      assert s == [x] + s[1..];
      assert multiset(s[1..]) == multiset(s) - multiset{x};
      CountsPermutation(s[1..], rest, t);
    }
  }

  lemma {:induction false} NoneAbove(s: seq<real>, t: real)
    requires forall i :: 0 <= i < |s| ==> s[i] <= t
    ensures CountAbove(s, t) == 0
  {
    if s != [] { NoneAbove(s[1..], t); }
  }

  lemma {:induction false} NoneBelow(s: seq<real>, t: real)
    requires forall i :: 0 <= i < |s| ==> s[i] >= t
    ensures CountBelow(s, t) == 0
  {
    if s != [] { NoneBelow(s[1..], t); }
  }

  lemma {:induction false} EqualsAreAbove(s: seq<real>, c: real, t: real)
    requires c > t
    ensures CountAbove(s, t) >= CountEq(s, c)
  {
    if s != [] { EqualsAreAbove(s[1..], c, t); }
  }

  lemma {:induction false} EqualsAreBelow(s: seq<real>, c: real, t: real)
    requires c < t
    ensures CountBelow(s, t) >= CountEq(s, c)
  {
    if s != [] { EqualsAreBelow(s[1..], c, t); }
  }

  /** `np.median(w)`: the middle entry of the sorted window, or the mean of
      the two middle entries when the window has even length. */
  function Median(w: seq<real>): (m: real)
    requires |w| > 0
    ensures exists a, b :: a in w && b in w && a <= m <= b
    ensures |w| % 2 == 1 ==> m in w
  {
    var d := SortDesc(w, Id);
    var h := |w| / 2;
    assert d[h] in multiset(d);
    assert d[h] in w;
    if |w| % 2 == 1 then d[h]
    else
      assert d[h - 1] in multiset(d);
      assert d[h - 1] in w;
      assert Id(d[h - 1]) >= Id(d[h]);
      (d[h - 1] + d[h]) / 2.0
  }

  /** In a largest-first sequence, at most `h` entries lie above a bound
      that `d[h]` does not exceed. */
  lemma AboveBound(d: seq<real>, m: real, h: nat)
    requires SortedDesc(d, Id) && h < |d| && d[h] <= m
    ensures CountAbove(d, m) <= h
  {
    assert d == d[..h] + d[h..];
    CountsConcat(d[..h], d[h..], m);
    forall i | 0 <= i < |d[h..]| ensures d[h..][i] <= m {
      assert Id(d[h]) >= Id(d[h + i]) || i == 0;
    }
    NoneAbove(d[h..], m);
  }

  /** In a largest-first sequence, at most `|d| - l` entries lie below a
      bound that `d[l - 1]` is not under. */
  lemma BelowBound(d: seq<real>, m: real, l: nat)
    requires SortedDesc(d, Id) && 0 < l <= |d| && d[l - 1] >= m
    ensures CountBelow(d, m) <= |d| - l
  {
    assert d == d[..l] + d[l..];
    CountsConcat(d[..l], d[l..], m);
    forall i | 0 <= i < |d[..l]| ensures d[..l][i] >= m {
      assert Id(d[i]) >= Id(d[l - 1]) || i == l - 1;
    }
    NoneBelow(d[..l], m);
  }

  /** No more than half of the window lies strictly above the median, and no
      more than half strictly below it. */
  lemma MedianBalanced(w: seq<real>)
    requires |w| > 0
    ensures CountAbove(w, Median(w)) <= |w| / 2
    ensures CountBelow(w, Median(w)) <= |w| / 2
  {
    var d := SortDesc(w, Id);
    var h := |w| / 2;
    var m := Median(w);
    CountsPermutation(w, d, m);
    if |w| % 2 == 1 {
      assert m == d[h];
      AboveBound(d, m, h);
      BelowBound(d, m, h + 1);
    } else {
      assert Id(d[h - 1]) >= Id(d[h]);
      assert d[h] <= m <= d[h - 1];
      AboveBound(d, m, h);
      BelowBound(d, m, h);
    }
  }

  /** One outlier in a window of three or more does not move the median. */
  lemma MedianIgnoresOneOutlier(w: seq<real>, c: real)
    requires |w| >= 3 && CountEq(w, c) >= |w| - 1
    ensures Median(w) == c
  {
    var m := Median(w);
    MedianBalanced(w);
    if m < c {
      EqualsAreAbove(w, c, m);
    } else if m > c {
      EqualsAreBelow(w, c, m);
    }
  }

  /** `np.pad(x, (p, p), mode='edge')`. */
  function EdgePad(x: seq<real>, p: nat): (xp: seq<real>)
    requires |x| > 0
    ensures |xp| == |x| + 2 * p
    ensures xp[p..p + |x|] == x
    ensures forall i :: 0 <= i < |xp| ==> xp[i] in x
    ensures forall i :: 0 <= i < p ==> xp[i] == x[0]
    ensures forall i :: p + |x| <= i < |xp| ==> xp[i] == x[|x| - 1]
  {
    seq(p, _ => x[0]) + x + seq(p, _ => x[|x| - 1])
  }

  /** The length-`k` window that centres on position `i` of `x`. */
  function Window(x: seq<real>, k: nat, i: nat): (w: seq<real>)
    requires 1 <= k <= |x| && i < |x|
    ensures |w| == k
    ensures forall j :: 0 <= j < k ==> w[j] in x
  {
    EdgePad(x, k / 2)[i..i + k]
  }

  /** `median_filter_1d(x, k)`: shorter inputs come back unchanged; otherwise
      each output is the median of its edge-padded window, so it lies
      between two input values, and for odd `k` it is one of them. */
  function MedianFilter(x: seq<real>, k: nat): (r: seq<real>)
    requires k >= 1
    ensures |r| == |x|
    ensures |x| < k ==> r == x
    ensures |x| >= k ==> forall i :: 0 <= i < |x| ==> r[i] == Median(Window(x, k, i))
  {
    if |x| < k then x
    else seq(|x|, i requires 0 <= i < |x| => Median(Window(x, k, i)))
  }

  /** Every output lies between two input values; with an odd window it is
      an input value. */
  lemma FilterStaysInRange(x: seq<real>, k: nat, i: nat)
    requires k >= 1 && i < |x|
    ensures exists a, b :: a in x && b in x && a <= MedianFilter(x, k)[i] <= b
    ensures k % 2 == 1 ==> MedianFilter(x, k)[i] in x
  {
    if |x| < k {
      assert x[i] in x;
    } else {
      var w := Window(x, k, i);
      assert MedianFilter(x, k)[i] == Median(w);
      var a, b :| a in w && b in w && a <= Median(w) <= b;
      assert a in x && b in x;
    }
  }

  /** A constant signal passes through the filter unchanged. */
  lemma ConstantIsFixed(x: seq<real>, c: real, k: nat)
    requires k >= 1 && forall i :: 0 <= i < |x| ==> x[i] == c
    ensures MedianFilter(x, k) == x
  {
    forall i | 0 <= i < |x| ensures MedianFilter(x, k)[i] == c {
      FilterStaysInRange(x, k, i);
    }
  }
}
