/** Sums and means of temperature readings, taken as mathematical reals. */
module Readings {

  /** The sum of the readings, accumulated left to right as a running total does. */
  function Sum(xs: seq<real>): real
  {
    if xs == [] then 0.0 else Sum(xs[..|xs| - 1]) + xs[|xs| - 1]
  }

  /** The arithmetic mean of a non-empty list of readings. */
  function Mean(xs: seq<real>): real
    requires xs != []
  {
    Sum(xs) / |xs| as real
  }

  /** Summing two lists one after the other is summing each and adding. */
  lemma {:induction false} SumAppend(xs: seq<real>, ys: seq<real>)
    ensures Sum(xs + ys) == Sum(xs) + Sum(ys)
    decreases |ys|
  {
    if ys != [] {
      var ys' := ys[..|ys| - 1];
      assert (xs + ys)[..|xs + ys| - 1] == xs + ys';
      assert (xs + ys)[|xs + ys| - 1] == ys[|ys| - 1];
      SumAppend(xs, ys');
    } else {
      assert xs + ys == xs;
    }
  }

  /** Taking one reading out of the list lowers the sum by exactly that reading. */
  lemma SumRemove(xs: seq<real>, j: nat)
    requires j < |xs|
    ensures Sum(xs) == Sum(xs[..j] + xs[j + 1..]) + xs[j]
  {
    var front, middle, back := xs[..j], [xs[j]], xs[j + 1..];
    assert xs == front + (middle + back);
    SumAppend(front, middle + back);
    SumAppend(middle, back);
    SumAppend(front, back);
    SumSingle(xs[j]);
  }

  lemma SumSingle(x: real)
    ensures Sum([x]) == x
  {
    assert [x][..0] == [];
  }

  /** Removing the element at j removes one occurrence of it from the multiset. */
  lemma MultisetRemove(xs: seq<real>, j: nat)
    requires j < |xs|
    ensures multiset(xs[..j] + xs[j + 1..]) == multiset(xs) - multiset{xs[j]}
  {
    var front, back := xs[..j], xs[j + 1..];
    assert xs == front + [xs[j]] + back;
  }

  /** The sum depends only on which readings there are, not on their order. */
  lemma {:induction false} SumPermutation(xs: seq<real>, ys: seq<real>)
    requires multiset(xs) == multiset(ys)
    ensures Sum(xs) == Sum(ys)
    decreases |xs|
  {
    if xs != [] {
      var last := xs[|xs| - 1];
      var xs' := xs[..|xs| - 1];
      assert xs == xs' + [last];
      assert last in multiset(ys);
      var j :| 0 <= j < |ys| && ys[j] == last;
      var ys' := ys[..j] + ys[j + 1..];
      MultisetRemove(ys, j);
      MultisetRemove(xs, |xs| - 1);
      assert xs[..|xs| - 1] + xs[|xs|..] == xs';
      SumPermutation(xs', ys');
      SumRemove(ys, j);
    } else {
      assert |ys| == |multiset(ys)| == 0;
    }
  }

  /** Readings all within [lo, hi] sum to within |xs| * lo and |xs| * hi. */
  lemma {:induction false} SumBounds(xs: seq<real>, lo: real, hi: real)
    requires forall i :: 0 <= i < |xs| ==> lo <= xs[i] <= hi
    ensures |xs| as real * lo <= Sum(xs) <= |xs| as real * hi
    decreases |xs|
  {
    if xs != [] {
      SumBounds(xs[..|xs| - 1], lo, hi);
    }
  }

  /** The mean of readings that all lie in [lo, hi] lies in [lo, hi] as well. */
  lemma MeanBounds(xs: seq<real>, lo: real, hi: real)
    requires xs != []
    requires forall i :: 0 <= i < |xs| ==> lo <= xs[i] <= hi
    ensures lo <= Mean(xs) <= hi
  {
    SumBounds(xs, lo, hi);
    var n := |xs| as real;
    assert n * lo <= Sum(xs) <= n * hi;
    assert Mean(xs) * n == Sum(xs);
  }

  /** The mean does not depend on the order of the readings. */
  lemma MeanPermutation(xs: seq<real>, ys: seq<real>)
    requires xs != [] && multiset(xs) == multiset(ys)
    ensures ys != [] && Mean(xs) == Mean(ys)
  {
    SumPermutation(xs, ys);
    assert |xs| == |multiset(xs)| == |multiset(ys)| == |ys|;
  }
}
