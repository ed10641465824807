/** The coordinate reducers of the relative-positioning engine: the topmost,
    bottommost, leftmost and rightmost coordinate of a list of anchor points,
    and the average horizontal or vertical center.  Each is a fold seeded by
    the first point; the extremal ones replace the running best only on a
    strict improvement. */
module Coordinates {
  import opened Types

  /** The x coordinates of a list of points, in order. */
  function Xs(pts: seq<Point>): (xs: seq<real>)
    ensures |xs| == |pts|
    ensures forall i :: 0 <= i < |pts| ==> xs[i] == pts[i].x
  {
    seq(|pts|, i requires 0 <= i < |pts| => pts[i].x)
  }

  /** The y coordinates of a list of points, in order. */
  function Ys(pts: seq<Point>): (ys: seq<real>)
    ensures |ys| == |pts|
    ensures forall i :: 0 <= i < |pts| ==> ys[i] == pts[i].y
  {
    seq(|pts|, i requires 0 <= i < |pts| => pts[i].y)
  }

  /** m is a least element of s. */
  ghost predicate IsLeast(m: real, s: seq<real>)
  {
    m in s && forall i :: 0 <= i < |s| ==> m <= s[i]
  }

  /** m is a greatest element of s. */
  ghost predicate IsGreatest(m: real, s: seq<real>)
  {
    m in s && forall i :: 0 <= i < |s| ==> s[i] <= m
  }

  /** A sequence has at most one least element. */
  lemma LeastUnique(m1: real, m2: real, s: seq<real>)
    requires IsLeast(m1, s) && IsLeast(m2, s)
    ensures m1 == m2
  {
  }

  /** A sequence has at most one greatest element. */
  lemma GreatestUnique(m1: real, m2: real, s: seq<real>)
    requires IsGreatest(m1, s) && IsGreatest(m2, s)
    ensures m1 == m2
  {
  }

  // ---------------------------------------------------------------------------
  // Extremal folds
  // ---------------------------------------------------------------------------

  /** The `reduce` of the topmost and leftmost reducers: a later value replaces
      the running best only when it is strictly smaller. */
  function FoldLeast(best: real, s: seq<real>): (r: real)
    ensures r <= best
    ensures forall i :: 0 <= i < |s| ==> r <= s[i]
    ensures r == best || r in s
    decreases |s|
  {
    if s == [] then best
    else FoldLeast(if s[0] < best then s[0] else best, s[1..])
  }

  /** The `reduce` of the bottommost and rightmost reducers: a later value
      replaces the running best only when it is strictly greater. */
  function FoldGreatest(best: real, s: seq<real>): (r: real)
    ensures best <= r
    ensures forall i :: 0 <= i < |s| ==> s[i] <= r
    ensures r == best || r in s
    decreases |s|
  {
    if s == [] then best
    else FoldGreatest(if s[0] > best then s[0] else best, s[1..])
  }

  /** The fold seeded with the first value over the remaining ones. */
  function Least(s: seq<real>): (m: real)
    requires |s| > 0
    ensures IsLeast(m, s)
  {
    FoldLeast(s[0], s[1..])
  }

  /** The fold seeded with the first value over the remaining ones. */
  function Greatest(s: seq<real>): (m: real)
    requires |s| > 0
    ensures IsGreatest(m, s)
  {
    FoldGreatest(s[0], s[1..])
  }

  /** getTopMostCoordinate: the smallest y of the points. */
  function TopMost(pts: seq<Point>): (y: real)
    requires |pts| > 0
    ensures forall i :: 0 <= i < |pts| ==> y <= pts[i].y
    ensures exists i :: 0 <= i < |pts| && pts[i].y == y
  {
    Least(Ys(pts))
  }

  /** getBottomMostCoordinate: the greatest y of the points. */
  function BottomMost(pts: seq<Point>): (y: real)
    requires |pts| > 0
    ensures forall i :: 0 <= i < |pts| ==> pts[i].y <= y
    ensures exists i :: 0 <= i < |pts| && pts[i].y == y
  {
    Greatest(Ys(pts))
  }

  /** getLeftMostCoordinate: the smallest x of the points. */
  function LeftMost(pts: seq<Point>): (x: real)
    requires |pts| > 0
    ensures forall i :: 0 <= i < |pts| ==> x <= pts[i].x
    ensures exists i :: 0 <= i < |pts| && pts[i].x == x
  {
    Least(Xs(pts))
  }

  /** getRightMostCoordinate: the greatest x of the points. */
  function RightMost(pts: seq<Point>): (x: real)
    requires |pts| > 0
    ensures forall i :: 0 <= i < |pts| ==> pts[i].x <= x
    ensures exists i :: 0 <= i < |pts| && pts[i].x == x
  {
    Greatest(Xs(pts))
  }

  /** A single value is its own least and greatest value. */
  lemma ExtremesOfSingleton(v: real)
    ensures Least([v]) == v && Greatest([v]) == v
  {
  }

  /** The extremes depend only on the values, not on their order or on which
      of several tied values comes first. */
  lemma {:induction false} ExtremesIgnoreOrder(s: seq<real>, t: seq<real>)
    requires |s| > 0 && multiset(s) == multiset(t)
    ensures |t| > 0
    ensures Least(s) == Least(t) && Greatest(s) == Greatest(t)
  {
    assert |t| == |multiset(t)| == |multiset(s)| == |s|;
    SameElements(s, t);
    LeastUnique(Least(s), Least(t), t);
    GreatestUnique(Greatest(s), Greatest(t), t);
  }

  /** Sequences with the same multiset have the same elements. */
  lemma SameElements(s: seq<real>, t: seq<real>)
    requires multiset(s) == multiset(t)
    ensures forall v :: v in s <==> v in t
  {
    forall v
      ensures v in s <==> v in t
    {
      assert v in s <==> v in multiset(s);
      assert v in t <==> v in multiset(t);
    }
  }

  /** The extreme of a concatenation is the extreme of the two parts' extremes:
      splitting the reference list does not change the result. */
  lemma {:induction false} ExtremesOfConcat(s: seq<real>, t: seq<real>)
    requires |s| > 0 && |t| > 0
    ensures Least(s + t) == if Least(t) < Least(s) then Least(t) else Least(s)
    ensures Greatest(s + t) == if Greatest(t) > Greatest(s) then Greatest(t) else Greatest(s)
  {
    var lo := if Least(t) < Least(s) then Least(t) else Least(s);
    var hi := if Greatest(t) > Greatest(s) then Greatest(t) else Greatest(s);
    forall i | 0 <= i < |s + t|
      ensures lo <= (s + t)[i] <= hi
    {
      if i < |s| {
        assert (s + t)[i] == s[i];
      } else {
        assert (s + t)[i] == t[i - |s|];
      }
    }
    assert lo in s + t;
    assert hi in s + t;
    LeastUnique(lo, Least(s + t), s + t);
    GreatestUnique(hi, Greatest(s + t), s + t);
  }

  // ---------------------------------------------------------------------------
  // Averages
  // ---------------------------------------------------------------------------

  /** The `reduce(0, +)` of the average reducers: a left fold adding each value
      to the running total. */
  function SumFold(acc: real, s: seq<real>): real
    decreases |s|
  {
    if s == [] then acc else SumFold(acc + s[0], s[1..])
  }

  /** The sum of a sequence, as a reference definition independent of the fold. */
  function Sum(s: seq<real>): real
  {
    if s == [] then 0.0 else s[0] + Sum(s[1..])
  }

  /** The fold computes the sum, whatever the running total starts from. */
  lemma {:induction false} SumFoldIsSum(acc: real, s: seq<real>)
    ensures SumFold(acc, s) == acc + Sum(s)
    decreases |s|
  {
    if s != [] {
      SumFoldIsSum(acc + s[0], s[1..]);
    }
  }

  /** A sum of n values between lo and hi lies between n * lo and n * hi. */
  lemma {:induction false} SumBounds(s: seq<real>, lo: real, hi: real)
    requires forall i :: 0 <= i < |s| ==> lo <= s[i] <= hi
    ensures (|s| as real) * lo <= Sum(s) <= (|s| as real) * hi
    decreases |s|
  {
    if s != [] {
      SumBounds(s[1..], lo, hi);
      assert (|s| as real) * lo == (|s[1..]| as real) * lo + lo;
      assert (|s| as real) * hi == (|s[1..]| as real) * hi + hi;
    }
  }

  /** Dividing by a positive count a total that lies between n * lo and n * hi
      gives a quotient between lo and hi. */
  lemma QuotientBounds(total: real, n: real, lo: real, hi: real)
    requires n > 0.0
    requires n * lo <= total <= n * hi
    ensures lo <= total / n <= hi
  {
  }

  /** The arithmetic mean of a non-empty sequence, as the average reducers
      compute it: the folded sum divided by the count.  It lies between the
      least and the greatest value. */
  function Mean(s: seq<real>): (m: real)
    requires |s| > 0
    ensures m == Sum(s) / (|s| as real)
    ensures Least(s) <= m <= Greatest(s)
  {
    SumFoldIsSum(0.0, s);
    MeanBounds(s, Least(s), Greatest(s));
    SumFold(0.0, s) / (|s| as real)
  }

  /** The sum of values between lo and hi, divided by their count, lies
      between lo and hi. */
  lemma MeanBounds(s: seq<real>, lo: real, hi: real)
    requires |s| > 0
    requires forall i :: 0 <= i < |s| ==> lo <= s[i] <= hi
    ensures lo <= Sum(s) / (|s| as real) <= hi
  {
    SumBounds(s, lo, hi);
    QuotientBounds(Sum(s), |s| as real, lo, hi);
  }

  /** getAverageHCenterCoordinate: the mean x of the points, which lies
      between the leftmost and the rightmost x. */
  function AverageHCenter(pts: seq<Point>): (x: real)
    requires |pts| > 0
    ensures x == Sum(Xs(pts)) / (|pts| as real)
    ensures LeftMost(pts) <= x <= RightMost(pts)
  {
    Mean(Xs(pts))
  }

  /** getAverageVCenterCoordinate: the mean y of the points, which lies
      between the topmost and the bottommost y. */
  function AverageVCenter(pts: seq<Point>): (y: real)
    requires |pts| > 0
    ensures y == Sum(Ys(pts)) / (|pts| as real)
    ensures TopMost(pts) <= y <= BottomMost(pts)
  {
    Mean(Ys(pts))
  }

  /** The mean of a single value is that value. */
  lemma MeanOfSingleton(v: real)
    ensures Mean([v]) == v
  {
    assert Sum([v]) == v + Sum([]);
  }

  /** The mean of equal values is that value. */
  lemma MeanOfConstant(s: seq<real>, v: real)
    requires |s| > 0
    requires forall i :: 0 <= i < |s| ==> s[i] == v
    ensures Mean(s) == v
  {
  }

  // ---------------------------------------------------------------------------
  // The folds as loops
  // ---------------------------------------------------------------------------

  /** The topmost/leftmost fold run as a loop.  Besides the value it reports
      the position of the point it keeps: because only a strict improvement
      replaces the running best, that is the first position holding the
      least value. */
  method ScanLeast(s: seq<real>) returns (best: real, at: nat)
    requires |s| > 0
    ensures best == Least(s)
    ensures at < |s| && s[at] == best
    ensures forall j :: 0 <= j < at ==> best < s[j]
  {
    best, at := s[0], 0;
    var i := 1;
    while i < |s|
      invariant 1 <= i <= |s|
      invariant at < i && s[at] == best
      invariant forall j :: 0 <= j < at ==> best < s[j]
      invariant forall j :: 0 <= j < i ==> best <= s[j]
    {
      if s[i] < best {
        best, at := s[i], i;
      }
      i := i + 1;
    }
    LeastUnique(best, Least(s), s);
  }

  /** The bottommost/rightmost fold run as a loop; it reports the first
      position holding the greatest value. */
  method ScanGreatest(s: seq<real>) returns (best: real, at: nat)
    requires |s| > 0
    ensures best == Greatest(s)
    ensures at < |s| && s[at] == best
    ensures forall j :: 0 <= j < at ==> s[j] < best
  {
    best, at := s[0], 0;
    var i := 1;
    while i < |s|
      invariant 1 <= i <= |s|
      invariant at < i && s[at] == best
      invariant forall j :: 0 <= j < at ==> s[j] < best
      invariant forall j :: 0 <= j < i ==> s[j] <= best
    {
      if s[i] > best {
        best, at := s[i], i;
      }
      i := i + 1;
    }
    GreatestUnique(best, Greatest(s), s);
  }

  /** The averaging fold run as a loop. */
  method ScanMean(s: seq<real>) returns (mean: real)
    requires |s| > 0
    ensures mean == Mean(s)
    ensures Least(s) <= mean <= Greatest(s)
  {
    var total := 0.0;
    var i := 0;
    while i < |s|
      invariant 0 <= i <= |s|
      invariant SumFold(total, s[i..]) == SumFold(0.0, s)
    {
      assert s[i..][1..] == s[i + 1..];
      total := total + s[i];
      i := i + 1;
    }
    mean := total / (|s| as real);
  }
}
