/** Real-valued helpers shared by the dispatcher, the loader and the routes:
    Python's built-in min/max and numpy's sum over a sequence. */
module Numeric {

  function Min(a: real, b: real): (r: real)
  {
    if a <= b then a else b
  }

  function Max(a: real, b: real): (r: real)
  {
    if a >= b then a else b
  }

  function Min3(a: real, b: real, c: real): (r: real)
  {
    Min(Min(a, b), c)
  }

  function MaxInt(a: int, b: int): (r: int)
    ensures r >= a && r >= b && (r == a || r == b)
  {
    if a >= b then a else b
  }

  function MinInt(a: int, b: int): (r: int)
    ensures r <= a && r <= b && (r == a || r == b)
  {
    if a <= b then a else b
  }

  /** Multiplying both sides by a non-negative factor keeps an inequality. */
  lemma MulMonotone(a: real, b: real, c: real)
    requires a <= b && 0.0 <= c
    ensures a * c <= b * c
  {
    assert (b - a) * c >= 0.0;
  }

  /** numpy's sum of a one-dimensional array, folded from the right. */
  function Sum(s: seq<real>): real
  {
    if s == [] then 0.0 else s[0] + Sum(s[1..])
  }

  lemma {:induction false} SumAppend(a: seq<real>, b: seq<real>)
    ensures Sum(a + b) == Sum(a) + Sum(b)
  {
    if a == [] {
      assert a + b == b;
    } else {
      assert (a + b)[1..] == a[1..] + b;
      SumAppend(a[1..], b);
    }
  }

  /** Summing a sequence one element at a time from the left gives the same total. */
  lemma SumSnoc(a: seq<real>, x: real)
    ensures Sum(a + [x]) == Sum(a) + x
  {
    SumAppend(a, [x]);
    assert Sum([x]) == x + Sum([]);
  }

  /** The sum of a sequence does not depend on the order of its elements. */
  lemma {:induction false} SumPermutation(a: seq<real>, b: seq<real>)
    requires multiset(a) == multiset(b)
    ensures Sum(a) == Sum(b)
    decreases |a|
  {
    if a == [] {
      assert |b| == |multiset(b)| == 0;
    } else {
      var x := a[0];
      assert x in multiset(b);
      var i :| 0 <= i < |b| && b[i] == x;
      var rest := b[..i] + b[i + 1..];
      assert b == b[..i] + ([x] + b[i + 1..]);
      assert a == [x] + a[1..];
      assert multiset(b) == multiset(b[..i]) + multiset{x} + multiset(b[i + 1..]);
      assert multiset(a) == multiset{x} + multiset(a[1..]);
      assert multiset(rest) == multiset(b[..i]) + multiset(b[i + 1..]);
      assert multiset(a[1..]) == multiset(a) - multiset{x};
      assert multiset(rest) == multiset(b) - multiset{x};
      SumPermutation(a[1..], rest);
      SumAppend(b[..i], [x] + b[i + 1..]);
      SumAppend([x], b[i + 1..]);
      SumAppend(b[..i], b[i + 1..]);
      assert Sum([x]) == x + Sum([]);
    }
  }

  /** Element-wise sum of two sequences of equal length (numpy's `a + b`). */
  function AddSeq(a: seq<real>, b: seq<real>): (r: seq<real>)
    requires |a| == |b|
    ensures |r| == |a| && forall i :: 0 <= i < |r| ==> r[i] == a[i] + b[i]
  {
    seq(|a|, i requires 0 <= i < |a| => a[i] + b[i])
  }

  /** The sum distributes over element-wise addition. */
  lemma {:induction false} SumAddSeq(a: seq<real>, b: seq<real>)
    requires |a| == |b|
    ensures Sum(AddSeq(a, b)) == Sum(a) + Sum(b)
    decreases |a|
  {
    if a != [] {
      assert AddSeq(a, b)[1..] == AddSeq(a[1..], b[1..]);
      SumAddSeq(a[1..], b[1..]);
    }
  }

  /** Element-wise product with a scalar (numpy's `a * k`). */
  function ScaleSeq(a: seq<real>, k: real): (r: seq<real>)
    ensures |r| == |a| && forall i :: 0 <= i < |r| ==> r[i] == a[i] * k
  {
    seq(|a|, i requires 0 <= i < |a| => a[i] * k)
  }

  /** A scalar factor can be taken out of a sum. */
  lemma {:induction false} SumScale(a: seq<real>, k: real)
    ensures Sum(ScaleSeq(a, k)) == Sum(a) * k
    decreases |a|
  {
    if a != [] {
      var tail := ScaleSeq(a, k)[1..];
      assert |tail| == |a[1..]|;
      assert forall j :: 0 <= j < |tail| ==> tail[j] == a[1..][j] * k;
      assert tail == ScaleSeq(a[1..], k);
      SumScale(a[1..], k);
      assert Sum(a) * k == a[0] * k + Sum(a[1..]) * k;
    }
  }

  /** A sum grows with its terms. */
  lemma {:induction false} SumMonotone(a: seq<real>, b: seq<real>)
    requires |a| == |b|
    requires forall i :: 0 <= i < |a| ==> a[i] <= b[i]
    ensures Sum(a) <= Sum(b)
    decreases |a|
  {
    if a != [] {
      SumMonotone(a[1..], b[1..]);
    }
  }

  /** A sum of non-negative terms is non-negative. */
  lemma {:induction false} SumNonNegative(a: seq<real>)
    requires forall i :: 0 <= i < |a| ==> 0.0 <= a[i]
    ensures 0.0 <= Sum(a)
    decreases |a|
  {
    if a != [] {
      SumNonNegative(a[1..]);
    }
  }

  /** A sum of zeros is zero. */
  lemma {:induction false} SumZeros(a: seq<real>)
    requires forall i :: 0 <= i < |a| ==> a[i] == 0.0
    ensures Sum(a) == 0.0
    decreases |a|
  {
    if a != [] {
      SumZeros(a[1..]);
    }
  }
}
