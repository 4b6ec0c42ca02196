/** Sums over tables. A column is passed as a function value, so that the same
    lemmas serve coupon rows, ledger postings, queue notes and orders. */
module Sums {

  function Sum<T>(s: seq<T>, f: T -> int): int {
    if |s| == 0 then 0 else Sum(s[..|s| - 1], f) + f(s[|s| - 1])
  }

  lemma SumAppend<T>(s: seq<T>, x: T, f: T -> int)
    ensures Sum(s + [x], f) == Sum(s, f) + f(x)
  {
    assert (s + [x])[..|s|] == s;
  }

  lemma {:induction false} SumUpdate<T>(s: seq<T>, i: nat, x: T, f: T -> int)
    requires i < |s|
    ensures Sum(s[i := x], f) == Sum(s, f) - f(s[i]) + f(x)
  {
    var last := |s| - 1;
    if i == last {
      assert s[i := x][..last] == s[..last];
    } else {
      SumUpdate(s[..last], i, x, f);
      assert s[i := x][..last] == s[..last][i := x];
    }
  }

  lemma {:induction false} SumZero<T>(s: seq<T>, f: T -> int)
    requires forall x | x in s :: f(x) == 0
    ensures Sum(s, f) == 0
  {
    if |s| == 0 {
    } else {
      SumZero(s[..|s| - 1], f);
    }
  }

  lemma {:induction false} SumNonNegative<T>(s: seq<T>, f: T -> int)
    requires forall x | x in s :: f(x) >= 0
    ensures Sum(s, f) >= 0
    ensures forall x | x in s :: f(x) <= Sum(s, f)
  {
    if |s| == 0 {
    } else {
      SumNonNegative(s[..|s| - 1], f);
      assert s == s[..|s| - 1] + [s[|s| - 1]];
    }
  }

  /** Sums are additive in the column. */
  lemma {:induction false} SumSplit<T>(s: seq<T>, f: T -> int, g: T -> int, h: T -> int)
    requires forall x | x in s :: h(x) == f(x) + g(x)
    ensures Sum(s, h) == Sum(s, f) + Sum(s, g)
  {
    if |s| == 0 {
    } else {
      SumSplit(s[..|s| - 1], f, g, h);
    }
  }

  lemma {:induction false} SumCongruent<T>(s: seq<T>, f: T -> int, g: T -> int)
    requires forall x | x in s :: f(x) == g(x)
    ensures Sum(s, f) == Sum(s, g)
  {
    if |s| == 0 {
    } else {
      SumCongruent(s[..|s| - 1], f, g);
    }
  }

  /** Two tables of the same height whose columns agree row by row. */
  lemma {:induction false} SumPairwise<T>(s: seq<T>, t: seq<T>, f: T -> int)
    requires |s| == |t|
    requires forall i | 0 <= i < |s| :: f(s[i]) == f(t[i])
    ensures Sum(s, f) == Sum(t, f)
  {
    if |s| == 0 {
    } else {
      SumPairwise(s[..|s| - 1], t[..|s| - 1], f);
    }
  }

  /** The sum of g over the integers lo, ..., hi - 1. */
  function SumRange(lo: int, hi: int, g: int -> int): int
    decreases hi - lo
  {
    if lo >= hi then 0 else SumRange(lo, hi - 1, g) + g(hi - 1)
  }

  lemma {:induction false} RangeCongruent(lo: int, hi: int, g: int -> int, h: int -> int)
    requires forall k | lo <= k < hi :: g(k) == h(k)
    ensures SumRange(lo, hi, g) == SumRange(lo, hi, h)
    decreases hi - lo
  {
    if lo >= hi {
    } else {
      RangeCongruent(lo, hi - 1, g, h);
    }
  }

  /** Changing one term changes the sum by the difference. */
  lemma {:induction false} RangeBump(lo: int, hi: int, g: int -> int, h: int -> int, at: int)
    requires lo <= at < hi
    requires forall k | lo <= k < hi && k != at :: g(k) == h(k)
    ensures SumRange(lo, hi, h) == SumRange(lo, hi, g) - g(at) + h(at)
    decreases hi - lo
  {
    if at == hi - 1 {
      RangeCongruent(lo, hi - 1, g, h);
    } else {
      RangeBump(lo, hi - 1, g, h, at);
    }
  }

  lemma {:induction false} RangeZero(lo: int, hi: int, g: int -> int)
    requires forall k | lo <= k < hi :: g(k) == 0
    ensures SumRange(lo, hi, g) == 0
    decreases hi - lo
  {
    if lo >= hi {
    } else {
      RangeZero(lo, hi - 1, g);
    }
  }

  lemma {:induction false} RangeNonNegative(lo: int, hi: int, g: int -> int)
    requires forall k | lo <= k < hi :: g(k) >= 0
    ensures SumRange(lo, hi, g) >= 0
    decreases hi - lo
  {
    if lo >= hi {
    } else {
      RangeNonNegative(lo, hi - 1, g);
    }
  }

  /** Sums over a range are additive too. */
  lemma {:induction false} RangeSplit(lo: int, hi: int, g: int -> int, less: int -> int, net: int -> int)
    requires forall k | lo <= k < hi :: net(k) == g(k) - less(k)
    ensures SumRange(lo, hi, net) == SumRange(lo, hi, g) - SumRange(lo, hi, less)
    decreases hi - lo
  {
    if lo >= hi {
    } else {
      RangeSplit(lo, hi - 1, g, less, net);
    }
  }

  lemma {:induction false} RangePositive(lo: int, hi: int, g: int -> int, at: int)
    requires lo <= at < hi && g(at) > 0
    requires forall k | lo <= k < hi :: g(k) >= 0
    ensures SumRange(lo, hi, g) > 0
    decreases hi - lo
  {
    if at == hi - 1 {
      RangeNonNegative(lo, hi - 1, g);
    } else {
      RangePositive(lo, hi - 1, g, at);
    }
  }
}
