/** The running accumulations the Python loops perform over lists of values:
    a running sum, a running maximum and minimum that replace the current
    value only on a strict improvement, and the arithmetic mean. Each is a
    left fold, so that one more loop step is one more element at the end. */
module Folds {

  /** `sum(s)`, accumulated from the left. */
  function Sum(s: seq<real>): real {
    if s == [] then 0.0 else Sum(s[..|s| - 1]) + s[|s| - 1]
  }

  /** Start from `init` and replace the value whenever an element is larger. */
  function MaxFrom(init: real, s: seq<real>): real {
    if s == [] then init
    else
      var m := MaxFrom(init, s[..|s| - 1]);
      if s[|s| - 1] > m then s[|s| - 1] else m
  }

  /** Start from `init` and replace the value whenever an element is smaller. */
  function MinFrom(init: real, s: seq<real>): real {
    if s == [] then init
    else
      var m := MinFrom(init, s[..|s| - 1]);
      if s[|s| - 1] < m then s[|s| - 1] else m
  }

  /** The arithmetic mean of a non-empty list. */
  function Mean(s: seq<real>): real
    requires |s| > 0
  {
    Sum(s) / |s| as real
  }

  /** Extending a slice by one element adds that element to its sum. */
  lemma {:induction false} SumSliceStep(s: seq<real>, i: nat, j: nat)
    requires i < j <= |s|
    ensures Sum(s[i..j]) == Sum(s[i..j - 1]) + s[j - 1]
  {
    assert s[i..j][..j - i - 1] == s[i..j - 1];
  }

  /** The running maximum is the largest of `init` and the elements. */
  lemma {:induction false} MaxFromIsMaximum(init: real, s: seq<real>)
    ensures init <= MaxFrom(init, s)
    ensures forall i :: 0 <= i < |s| ==> s[i] <= MaxFrom(init, s)
    ensures MaxFrom(init, s) == init || MaxFrom(init, s) in s
  {
    if s != [] {
      var front := s[..|s| - 1];
      MaxFromIsMaximum(init, front);
      assert forall i :: 0 <= i < |s| - 1 ==> s[i] == front[i];
    }
  }

  /** The running minimum is the smallest of `init` and the elements. */
  lemma {:induction false} MinFromIsMinimum(init: real, s: seq<real>)
    ensures MinFrom(init, s) <= init
    ensures forall i :: 0 <= i < |s| ==> MinFrom(init, s) <= s[i]
    ensures MinFrom(init, s) == init || MinFrom(init, s) in s
  {
    if s != [] {
      var front := s[..|s| - 1];
      MinFromIsMinimum(init, front);
      assert forall i :: 0 <= i < |s| - 1 ==> s[i] == front[i];
    }
  }

  /** The sum of a concatenation is the sum of the parts. */
  lemma {:induction false} SumAppend(a: seq<real>, b: seq<real>)
    ensures Sum(a + b) == Sum(a) + Sum(b)
    decreases |b|
  {
    if b == [] {
      assert a + b == a;
    } else {
      var front := b[..|b| - 1];
      SumAppend(a, front);
      assert (a + b)[..|a + b| - 1] == a + front;
    }
  }

  /** A sum of elements that are each at most `bound` is at most
      `|s| * bound`, and likewise from below. */
  lemma {:induction false} SumBounds(s: seq<real>, lo: real, hi: real)
    requires forall i :: 0 <= i < |s| ==> lo <= s[i] <= hi
    ensures |s| as real * lo <= Sum(s) <= |s| as real * hi
  {
    if s != [] {
      var front := s[..|s| - 1];
      assert forall i :: 0 <= i < |front| ==> front[i] == s[i];
      SumBounds(front, lo, hi);
      var n := |front| as real;
      assert |s| as real * hi == n * hi + hi;
      assert |s| as real * lo == n * lo + lo;
    }
  }

  /** The sum of `n` copies of `c` is `n * c`. */
  lemma {:induction false} SumConstant(s: seq<real>, c: real)
    requires forall i :: 0 <= i < |s| ==> s[i] == c
    ensures Sum(s) == |s| as real * c
  {
    SumBounds(s, c, c);
  }

  /** The mean lies between the smallest and the largest element, and the
      mean of a constant list is that constant. */
  lemma {:induction false} MeanBetween(s: seq<real>, lo: real, hi: real)
    requires |s| > 0
    requires forall i :: 0 <= i < |s| ==> lo <= s[i] <= hi
    ensures lo <= Mean(s) <= hi
  {
    SumBounds(s, lo, hi);
    var n := |s| as real;
    assert Mean(s) * n == Sum(s);
  }
}
