/** The column reductions the pipeline applies per route group: count, sum,
 *  mean, median, and the mean of a boolean flag column (a fraction). A value
 *  the data frame holds as NaN is `None`; mean and median skip it, as the
 *  data-frame library does, and give `None` when nothing is left. Arithmetic
 *  is exact over the reals. */
module Stats {
  import opened Frames

  function Sum(xs: seq<real>): (s: real)
  {
    if xs == [] then 0.0 else xs[0] + Sum(xs[1..])
  }

  /** Bounding every term bounds the sum. */
  lemma {:induction false} SumBounds(xs: seq<real>, lo: real, hi: real)
    requires forall i :: 0 <= i < |xs| ==> lo <= xs[i] <= hi
    ensures |xs| as real * lo <= Sum(xs) <= |xs| as real * hi
  {
    if xs != [] {
      SumBounds(xs[1..], lo, hi);
    }
  }

  /** Sums of non-negative terms are non-negative, and of positive terms
   *  positive once there is at least one term. */
  lemma {:induction false} SumPositive(xs: seq<real>)
    requires forall i :: 0 <= i < |xs| ==> xs[i] > 0.0
    ensures Sum(xs) >= 0.0
    ensures |xs| > 0 ==> Sum(xs) > 0.0
  {
    if xs != [] {
      SumPositive(xs[1..]);
    }
  }

  lemma {:induction false} SumNonNegative(xs: seq<real>)
    requires forall i :: 0 <= i < |xs| ==> xs[i] >= 0.0
    ensures Sum(xs) >= 0.0
  {
    if xs != [] {
      SumNonNegative(xs[1..]);
    }
  }

  /** Summing is monotone in each term. */
  lemma {:induction false} SumLe(a: seq<real>, b: seq<real>)
    requires |a| == |b|
    requires forall i :: 0 <= i < |a| ==> a[i] <= b[i]
    ensures Sum(a) <= Sum(b)
  {
    if a != [] {
      SumLe(a[1..], b[1..]);
    }
  }

  /** Summing is additive over a column that is the row-wise sum of two others. */
  lemma {:induction false} SumAdd(a: seq<real>, b: seq<real>, c: seq<real>)
    requires |a| == |b| == |c|
    requires forall i :: 0 <= i < |c| ==> c[i] == a[i] + b[i]
    ensures Sum(c) == Sum(a) + Sum(b)
  {
    if c != [] {
      SumAdd(a[1..], b[1..], c[1..]);
    }
  }

  /** Arithmetic mean of a non-empty column. */
  function Mean(xs: seq<real>): (m: real)
    requires |xs| > 0
  {
    Sum(xs) / |xs| as real
  }

  /** The mean lies within any bounds of the column. */
  lemma MeanBounds(xs: seq<real>, lo: real, hi: real)
    requires |xs| > 0
    requires forall i :: 0 <= i < |xs| ==> lo <= xs[i] <= hi
    ensures lo <= Mean(xs) <= hi
  {
    SumBounds(xs, lo, hi);
    DivBounds(Sum(xs), |xs| as real, lo, hi);
  }

  lemma DivBounds(s: real, n: real, lo: real, hi: real)
    requires n > 0.0 && n * lo <= s <= n * hi
    ensures lo <= s / n <= hi
  {
    assert s / n * n == s;
  }

  /** The mean of positive values is positive. */
  lemma MeanPositive(xs: seq<real>)
    requires |xs| > 0
    requires forall i :: 0 <= i < |xs| ==> xs[i] > 0.0
    ensures Mean(xs) > 0.0
  {
    SumPositive(xs);
  }

  /** A one-row column has that row as its mean. */
  lemma MeanSingleton(x: real)
    ensures Mean([x]) == x
  {
    assert [x][1..] == [];
    assert Sum([x]) == x + Sum([]);
  }

  /** 1.0 for true, 0.0 for false: how a boolean column averages. */
  function Indicator(b: bool): (r: real)
    ensures 0.0 <= r <= 1.0
    ensures r == 1.0 <==> b
    ensures r == 0.0 <==> !b
  {
    if b then 1.0 else 0.0
  }

  /** Mean of a non-empty boolean column: the fraction of true rows. */
  function Fraction(bs: seq<bool>): (f: real)
    requires |bs| > 0
    ensures 0.0 <= f <= 1.0
  {
    var xs := MapSeq(bs, Indicator);
    MeanBounds(xs, 0.0, 1.0);
    Mean(xs)
  }

  /** A flag that implies another row by row has the smaller fraction. */
  lemma FractionMonotone(a: seq<bool>, b: seq<bool>)
    requires |a| == |b| > 0
    requires forall i :: 0 <= i < |a| ==> a[i] ==> b[i]
    ensures Fraction(a) <= Fraction(b)
  {
    var xa, xb := MapSeq(a, Indicator), MapSeq(b, Indicator);
    SumLe(xa, xb);
    var n := |a| as real;
    DivLe(Sum(xa), Sum(xb), n);
  }

  lemma DivLe(x: real, y: real, n: real)
    requires n > 0.0 && x <= y
    ensures x / n <= y / n
  {
  }

  function Not(bs: seq<bool>): (r: seq<bool>)
    ensures |r| == |bs|
    ensures forall i :: 0 <= i < |bs| ==> r[i] == !bs[i]
  {
    seq(|bs|, i requires 0 <= i < |bs| => !bs[i])
  }

  /** The fractions of a flag and of its negation add up to one. */
  lemma FractionComplement(bs: seq<bool>)
    requires |bs| > 0
    ensures Fraction(bs) + Fraction(Not(bs)) == 1.0
  {
    var xa, xb := MapSeq(bs, Indicator), MapSeq(Not(bs), Indicator);
    var ones := seq(|bs|, i => 1.0);
    SumAdd(xa, xb, ones);
    SumBounds(ones, 1.0, 1.0);
    var n := |bs| as real;
    assert Sum(xa) + Sum(xb) == n;
    DivSum(Sum(xa), Sum(xb), n);
  }

  lemma DivSum(x: real, y: real, n: real)
    requires n > 0.0 && x + y == n
    ensures x / n + y / n == 1.0
  {
  }

  /** The non-NaN values of a column, in order (see `PresentAppend`). */
  function Present(xs: seq<Option<real>>): (r: seq<real>)
    ensures |r| <= |xs|
    ensures forall x :: x in r <==> Some(x) in xs
    ensures forall x {:trigger multiset(r)[x]} :: multiset(r)[x] == multiset(xs)[Some(x)]
  {
    if xs == [] then []
    else
      assert xs == [xs[0]] + xs[1..];
      (if xs[0].Some? then [xs[0].value] else []) + Present(xs[1..])
  }

  /** Dropping the NaN cells keeps the order of the rest: it distributes
   *  over concatenation, keeps a present cell and drops a NaN one. */
  lemma {:induction false} PresentAppend(xs: seq<Option<real>>, ys: seq<Option<real>>)
    ensures Present(xs + ys) == Present(xs) + Present(ys)
  {
    if xs == [] {
      assert xs + ys == ys;
    } else {
      var h := if xs[0].Some? then [xs[0].value] else [];
      var a, b := Present(xs[1..]), Present(ys);
      assert Present(xs + ys) == h + Present(xs[1..] + ys) by {
        assert (xs + ys)[0] == xs[0];
        assert (xs + ys)[1..] == xs[1..] + ys;
      }
      PresentAppend(xs[1..], ys);
      assert Present(xs) == h + a by {
        assert xs == [xs[0]] + xs[1..];
      }
      assert h + (a + b) == (h + a) + b;
    }
  }

  /** A present cell is kept and a NaN cell dropped. */
  lemma PresentCell(x: real)
    ensures Present([Some(x)]) == [x]
    ensures var nan: seq<Option<real>> := [None]; Present(nan) == []
  {
    assert [Some(x)][1..] == [];
    var nan: seq<Option<real>> := [None];
    assert nan[1..] == [];
  }

  lemma {:induction false} PresentAll(xs: seq<real>, ys: seq<Option<real>>)
    requires |xs| == |ys|
    requires forall i :: 0 <= i < |ys| ==> ys[i] == Some(xs[i])
    ensures Present(ys) == xs
  {
    if ys != [] {
      PresentAll(xs[1..], ys[1..]);
    }
  }

  /** `Series.mean()`: mean of the non-NaN values, NaN when there are none. */
  function MeanSkipNaN(xs: seq<Option<real>>): (m: Option<real>)
    ensures m.None? <==> forall i :: 0 <= i < |xs| ==> xs[i].None?
  {
    var p := Present(xs);
    if p == [] then
      assert forall i :: 0 <= i < |xs| ==> xs[i].None? by {
        forall i | 0 <= i < |xs| ensures xs[i].None? {
          assert xs[i] in xs;
        }
      }
      None
    else
      assert p[0] in p;
      Some(Mean(p))
  }

  predicate SortedUp(s: seq<real>) {
    forall i, j :: 0 <= i < j < |s| ==> s[i] <= s[j]
  }

  lemma ConsSortedUp(a: real, t: seq<real>)
    requires SortedUp(t) && (t != [] ==> a <= t[0])
    ensures SortedUp([a] + t)
  {
    var r := [a] + t;
    forall i, j | 0 <= i < j < |r| ensures r[i] <= r[j] {
      if i == 0 { assert t[0] <= t[j - 1]; }
    }
  }

  function Insert(x: real, s: seq<real>): (r: seq<real>)
    requires SortedUp(s)
    ensures SortedUp(r)
    ensures |r| == |s| + 1 && (r[0] == x || (s != [] && r[0] == s[0]))
  {
    if s == [] then [x]
    else if x <= s[0] then
      ConsSortedUp(x, s);
      [x] + s
    else
      assert s == [s[0]] + s[1..];
      var t := Insert(x, s[1..]);
      assert s[0] <= t[0];
      ConsSortedUp(s[0], t);
      [s[0]] + t
  }

  /** Inserting adds exactly the one value. */
  lemma {:induction false} InsertPermutes(x: real, s: seq<real>)
    requires SortedUp(s)
    ensures multiset(Insert(x, s)) == multiset(s) + multiset{x}
  {
    if s != [] && x > s[0] {
      assert s == [s[0]] + s[1..];
      InsertPermutes(x, s[1..]);
    }
  }

  /** The column in ascending order. */
  function SortUp(xs: seq<real>): (r: seq<real>)
    ensures SortedUp(r)
    ensures multiset(r) == multiset(xs)
  {
    if xs == [] then []
    else
      assert xs == [xs[0]] + xs[1..];
      InsertPermutes(xs[0], SortUp(xs[1..]));
      Insert(xs[0], SortUp(xs[1..]))
  }

  /** Median of a non-empty column: the middle value, or the average of the
   *  two middle values when the count is even. */
  function Median(xs: seq<real>): (m: real)
    requires |xs| > 0
    ensures exists i :: 0 <= i < |xs| && xs[i] <= m
    ensures exists j :: 0 <= j < |xs| && m <= xs[j]
  {
    var s := SortUp(xs);
    var n := |s|;
    assert s[0] in multiset(xs) && s[n - 1] in multiset(xs);
    assert s[0] in xs && s[n - 1] in xs;
    if n % 2 == 1 then s[n / 2] else (s[n / 2 - 1] + s[n / 2]) / 2.0
  }

  /** A column has only one ascending order: two ascending sequences with
   *  the same values are equal. */
  lemma {:induction false} SortedUnique(s: seq<real>, t: seq<real>)
    requires SortedUp(s) && SortedUp(t) && multiset(s) == multiset(t)
    ensures s == t
  {
    if s != [] {
      SortedHead(s, t);
      SortedTail(s);
      SortedTail(t);
      SortedUnique(s[1..], t[1..]);
      assert s == [s[0]] + s[1..] && t == [t[0]] + t[1..];
    }
  }

  /** Two ascending arrangements of the same values start alike. */
  lemma SortedHead(s: seq<real>, t: seq<real>)
    requires SortedUp(s) && SortedUp(t) && multiset(s) == multiset(t) && s != []
    ensures t != [] && s[0] == t[0]
  {
    assert s[0] in multiset(t);
    var i :| 0 <= i < |t| && t[i] == s[0];
    assert t[0] in multiset(s);
    var j :| 0 <= j < |s| && s[j] == t[0];
  }

  lemma SortedTail(s: seq<real>)
    requires SortedUp(s) && s != []
    ensures SortedUp(s[1..]) && multiset(s[1..]) == multiset(s) - multiset{s[0]}
  {
    assert s == [s[0]] + s[1..];
  }

  /** `median()`: for any ascending arrangement `s` of the column, the
   *  middle value for an odd count, the mean of the two middle values for
   *  an even one. */
  lemma MedianSpec(xs: seq<real>, s: seq<real>)
    requires |xs| > 0 && SortedUp(s) && multiset(s) == multiset(xs)
    ensures |s| == |xs|
    ensures |s| % 2 == 1 ==> Median(xs) == s[|s| / 2]
    ensures |s| % 2 == 0 ==> Median(xs) == (s[|s| / 2 - 1] + s[|s| / 2]) / 2.0
  {
    assert |s| == |xs| by { assert |multiset(s)| == |multiset(xs)|; }
    SortedUnique(SortUp(xs), s);
  }

  /** The median lies within any bounds of the column, and between its
   *  smallest and its largest value. */
  lemma MedianBounds(xs: seq<real>, lo: real, hi: real)
    requires |xs| > 0
    requires forall i :: 0 <= i < |xs| ==> lo <= xs[i] <= hi
    ensures lo <= Median(xs) <= hi
  {
    var s := SortUp(xs);
    forall i | 0 <= i < |s|
      ensures lo <= s[i] <= hi
    {
      assert s[i] in multiset(xs);
    }
  }

  lemma MedianSingleton(x: real)
    ensures Median([x]) == x
  {
    assert SortUp([x]) == [x];
  }

  /** `Series.median()`: median of the non-NaN values, NaN when there are none. */
  function MedianSkipNaN(xs: seq<Option<real>>): (m: Option<real>)
    ensures m.None? <==> forall i :: 0 <= i < |xs| ==> xs[i].None?
  {
    var p := Present(xs);
    if p == [] then
      assert forall i :: 0 <= i < |xs| ==> xs[i].None? by {
        forall i | 0 <= i < |xs| ensures xs[i].None? {
          assert xs[i] in xs;
        }
      }
      None
    else
      assert p[0] in p;
      Some(Median(p))
  }
}
