/** Sums over sequences, the model of `reduce((acc, x) => acc + f(x), 0)`. */
module Sums {

  /** Sum of `f` over the elements of `s`, in order. */
  function Sum<T>(s: seq<T>, f: T -> int): int
  {
    if |s| == 0 then 0 else f(s[0]) + Sum(s[1..], f)
  }

  /** Summing a concatenation is summing each part. */
  lemma {:induction false} SumConcat<T>(a: seq<T>, b: seq<T>, f: T -> int)
    ensures Sum(a + b, f) == Sum(a, f) + Sum(b, f)
  {
    if |a| == 0 {
      assert a + b == b;
    } else {
      assert (a + b)[1..] == a[1..] + b;
      SumConcat(a[1..], b, f);
    }
  }

  lemma SumSingleton<T>(x: T, f: T -> int)
    ensures Sum([x], f) == f(x)
  {
  }

  /** Appending one element adds exactly its own contribution. */
  lemma SumSnoc<T>(s: seq<T>, x: T, f: T -> int)
    ensures Sum(s + [x], f) == Sum(s, f) + f(x)
  {
    SumConcat(s, [x], f);
  }

  /** A sum does not depend on the order of the summed elements. */
  lemma {:induction false} SumPermutation<T>(a: seq<T>, b: seq<T>, f: T -> int)
    requires multiset(a) == multiset(b)
    ensures Sum(a, f) == Sum(b, f)
    decreases |a|
  {
    if |a| == 0 {
      assert |multiset(b)| == 0;
    } else {
      var x := a[0];
      assert x in multiset(b);
      var k :| 0 <= k < |b| && b[k] == x;
      var rest := b[..k] + b[k+1..];
      assert b == b[..k] + [x] + b[k+1..];
      assert a == [x] + a[1..];
      calc {
        multiset(a[1..]);
        multiset(a) - multiset{x};
        multiset(b[..k]) + multiset{x} + multiset(b[k+1..]) - multiset{x};
        multiset(b[..k]) + multiset(b[k+1..]);
        multiset(rest);
      }
      SumPermutation(a[1..], rest, f);
      SumConcat(b[..k] + [x], b[k+1..], f);
      SumConcat(b[..k], [x], f);
      SumConcat(b[..k], b[k+1..], f);
    }
  }
}
