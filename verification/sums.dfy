/** Integer sums over sequences: the fold every storage metric of the
    dashboards is built from. */
module Sums {

  /** The sum of `f(x)` over the elements `x` of `s`, in order. */
  function SumOf<T>(s: seq<T>, f: T -> int): int
  {
    if |s| == 0 then 0 else f(s[0]) + SumOf(s[1..], f)
  }

  /** Summing over a concatenation adds the two sums. */
  lemma {:induction false} SumOfConcat<T>(a: seq<T>, b: seq<T>, f: T -> int)
    ensures SumOf(a + b, f) == SumOf(a, f) + SumOf(b, f)
    decreases |a|
  {
    if |a| == 0 {
      assert a + b == b;
    } else {
      assert (a + b)[1..] == a[1..] + b;
      SumOfConcat(a[1..], b, f);
    }
  }

  /** Appending one element adds its term: the step of a left-to-right loop. */
  lemma {:induction false} SumOfSnoc<T>(s: seq<T>, x: T, f: T -> int)
    ensures SumOf(s + [x], f) == SumOf(s, f) + f(x)
  {
    SumOfConcat(s, [x], f);
    assert SumOf([x], f) == f(x) + SumOf([x][1..], f);
  }

  /** The sum of a prefix one element longer than `s[..i]`. */
  lemma {:induction false} SumOfPrefixStep<T>(s: seq<T>, i: nat, f: T -> int)
    requires i < |s|
    ensures SumOf(s[..i + 1], f) == SumOf(s[..i], f) + f(s[i])
  {
    assert s[..i + 1] == s[..i] + [s[i]];
    SumOfSnoc(s[..i], s[i], f);
  }

  /** Taking out the element at `j` takes its term out of the sum. */
  lemma {:induction false} SumOfRemoveAt<T>(b: seq<T>, j: nat, f: T -> int)
    requires j < |b|
    ensures SumOf(b, f) == f(b[j]) + SumOf(b[..j] + b[j + 1..], f)
  {
    assert b == (b[..j] + [b[j]]) + b[j + 1..];
    SumOfConcat(b[..j] + [b[j]], b[j + 1..], f);
    SumOfSnoc(b[..j], b[j], f);
    SumOfConcat(b[..j], b[j + 1..], f);
  }

  /** Taking out the element at `j` takes one copy of it out of the multiset. */
  lemma MultisetRemoveAt<T>(b: seq<T>, j: nat)
    requires j < |b|
    ensures multiset(b[..j] + b[j + 1..]) == multiset(b) - multiset{b[j]}
  {
    assert b == b[..j] + [b[j]] + b[j + 1..];
    assert multiset(b) == multiset(b[..j]) + multiset{b[j]} + multiset(b[j + 1..]);
  }

  /** The sum does not depend on the order of the elements. */
  lemma {:induction false} SumOfPermutation<T>(a: seq<T>, b: seq<T>, f: T -> int)
    requires multiset(a) == multiset(b)
    ensures SumOf(a, f) == SumOf(b, f)
    decreases |a|
  {
    if |a| == 0 {
      assert |multiset(b)| == 0;
      assert b == [];
    } else {
      var x := a[0];
      assert x in multiset(a);
      var j :| 0 <= j < |b| && b[j] == x;
      MultisetRemoveAt(a, 0);
      MultisetRemoveAt(b, j);
      assert a[..0] + a[1..] == a[1..];
      SumOfPermutation(a[1..], b[..j] + b[j + 1..], f);
      SumOfRemoveAt(b, j, f);
    }
  }

  /** Two term functions that agree on every element give the same sum. */
  lemma {:induction false} SumOfPointwise<T>(s: seq<T>, f: T -> int, g: T -> int)
    requires forall i :: 0 <= i < |s| ==> f(s[i]) == g(s[i])
    ensures SumOf(s, f) == SumOf(s, g)
    decreases |s|
  {
    if |s| > 0 {
      SumOfPointwise(s[1..], f, g);
    }
  }

  /** Non-negative terms give a non-negative sum. */
  lemma {:induction false} SumOfNonNegative<T>(s: seq<T>, f: T -> int)
    requires forall i :: 0 <= i < |s| ==> 0 <= f(s[i])
    ensures 0 <= SumOf(s, f)
    decreases |s|
  {
    if |s| > 0 {
      SumOfNonNegative(s[1..], f);
    }
  }
}
