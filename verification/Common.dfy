/** Small value types shared by the other modules. */
module Common {

  datatype Option<+T> = None | Some(value: T)

  /** The number of occurrences of `x` in `xs`. */
  function Count<T(==)>(xs: seq<T>, x: T): nat {
    if xs == [] then 0 else (if xs[0] == x then 1 else 0) + Count(xs[1..], x)
  }

  ghost predicate Distinct<T(!new)>(xs: seq<T>) {
    forall i, j :: 0 <= i < j < |xs| ==> xs[i] != xs[j]
  }

  lemma {:induction false} CountDistinct<T(!new)>(xs: seq<T>, x: T)
    requires Distinct(xs)
    ensures Count(xs, x) == if x in xs then 1 else 0
  {
    if xs != [] {
      CountDistinct(xs[1..], x);
      assert xs == [xs[0]] + xs[1..];
    }
  }

  /** `xs` without any occurrence of `c`, in order. */
  function Without<T(==)>(xs: seq<T>, c: T): seq<T> {
    if xs == [] then []
    else Without(xs[..|xs| - 1], c) + if xs[|xs| - 1] == c then [] else [xs[|xs| - 1]]
  }

  lemma {:induction false} WithoutFacts<T(!new)>(xs: seq<T>, c: T)
    ensures forall x :: x in Without(xs, c) <==> x in xs && x != c
    ensures |Without(xs, c)| <= |xs|
    ensures c in xs <==> |Without(xs, c)| < |xs|
    ensures Distinct(xs) ==> Distinct(Without(xs, c)) && |Without(xs, c)| == |xs| - (if c in xs then 1 else 0)
  {
    if xs != [] {
      var n := |xs| - 1;
      WithoutFacts(xs[..n], c);
      assert forall x :: x in xs <==> x in xs[..n] || x == xs[n];
      if Distinct(xs) {
        assert Distinct(xs[..n]) && xs[n] !in xs[..n];
      }
    }
  }

  /** Times are whole milliseconds. */
  const SECOND := 1000
}
