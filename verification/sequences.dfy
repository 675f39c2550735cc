/** Sequences without repetition, and subsequences: the order-preserving way one history sits inside another. */
module Sequences {

  predicate Unique<T(==)>(xs: seq<T>) {
    forall i, j :: 0 <= i < j < |xs| ==> xs[i] != xs[j]
  }

  // a can be obtained from b by leaving elements out.
  predicate Subsequence<T(==)>(a: seq<T>, b: seq<T>)
    decreases |b|
  {
    if a == [] then true
    else if b == [] then false
    else if a[|a| - 1] == b[|b| - 1] then Subsequence(a[..|a| - 1], b[..|b| - 1])
    else Subsequence(a, b[..|b| - 1])
  }

  lemma {:induction false} SkipLast<T>(a: seq<T>, b: seq<T>)
    requires a != [] && Subsequence(a, b)
    ensures Subsequence(a[..|a| - 1], b)
    decreases |b|, 0
  {
    if a[|a| - 1] == b[|b| - 1] {
      SkipMore(a[..|a| - 1], b[..|b| - 1], b[|b| - 1]);
      assert b[..|b| - 1] + [b[|b| - 1]] == b;
    } else {
      SkipLast(a, b[..|b| - 1]);
      SkipMore(a[..|a| - 1], b[..|b| - 1], b[|b| - 1]);
      assert b[..|b| - 1] + [b[|b| - 1]] == b;
    }
  }

  lemma {:induction false} SkipMore<T>(a: seq<T>, b: seq<T>, x: T)
    requires Subsequence(a, b)
    ensures Subsequence(a, b + [x])
    decreases |b|, 1
  {
    assert (b + [x])[..|b|] == b;
    if a != [] && a[|a| - 1] == x {
      SkipLast(a, b);
    }
  }

  lemma Both<T>(a: seq<T>, b: seq<T>, x: T)
    requires Subsequence(a, b)
    ensures Subsequence(a + [x], b + [x])
  {
    assert (a + [x])[..|a|] == a && (b + [x])[..|b|] == b;
  }

  lemma {:induction false} Shorter<T>(a: seq<T>, b: seq<T>, n: nat)
    requires Subsequence(a, b) && n <= |a|
    ensures Subsequence(a[..n], b)
    decreases |a| - n
  {
    if n < |a| {
      Shorter(a, b, n + 1);
      SkipLast(a[..n + 1], b);
      assert a[..n + 1][..n] == a[..n];
    } else {
      assert a[..n] == a;
    }
  }

  lemma {:induction false} Longer<T>(a: seq<T>, b: seq<T>, more: seq<T>)
    requires Subsequence(a, b)
    ensures Subsequence(a, b + more)
    decreases |more|
  {
    if more == [] {
      assert b + more == b;
    } else {
      var front, x := more[..|more| - 1], more[|more| - 1];
      Longer(a, b, front);
      SkipMore(a, b + front, x);
      assert b + front + [x] == b + more;
    }
  }

  lemma {:induction false} Reflexive<T>(a: seq<T>)
    ensures Subsequence(a, a)
  {
    if a != [] {
      Reflexive(a[..|a| - 1]);
    }
  }
}
