/** Counting the elements of a sequence that satisfy a condition, independently of their order. */
module Tally {

  /** The number of elements of `xs` that satisfy `f`. */
  function CountIf<T>(xs: seq<T>, f: T -> bool): nat
    decreases |xs|
  {
    if |xs| == 0 then 0 else CountIf(xs[..|xs| - 1], f) + (if f(xs[|xs| - 1]) then 1 else 0)
  }

  lemma {:induction false} CountIfAppend<T>(a: seq<T>, b: seq<T>, f: T -> bool)
    ensures CountIf(a + b, f) == CountIf(a, f) + CountIf(b, f)
    decreases |b|
  {
    if |b| > 0 {
      assert (a + b)[..|a + b| - 1] == a + b[..|b| - 1];
      CountIfAppend(a, b[..|b| - 1], f);
    } else {
      assert a + b == a;
    }
  }

  lemma SplitAt<T>(b: seq<T>, i: nat)
    requires i < |b|
    ensures b == b[..i] + [b[i]] + b[i + 1..]
  {
    assert b[i..] == [b[i]] + b[i + 1..];
    assert b == b[..i] + b[i..];
  }

  /** Removing one element removes its contribution. */
  lemma CountIfRemoveAt<T>(b: seq<T>, i: nat, f: T -> bool)
    requires i < |b|
    ensures CountIf(b, f) == CountIf(b[..i] + b[i + 1..], f) + (if f(b[i]) then 1 else 0)
  {
    var pre, x, post := b[..i], b[i], b[i + 1..];
    SplitAt(b, i);
    CountIfAppend(pre + [x], post, f);
    CountIfAppend(pre, [x], f);
    CountIfAppend(pre, post, f);
    assert CountIf([x], f) == (if f(x) then 1 else 0) by {
      assert [x][..0] == [];
    }
  }

  /** A count depends only on which elements there are, not on their order. */
  lemma {:induction false} CountIfPermutation<T>(a: seq<T>, b: seq<T>, f: T -> bool)
    requires multiset(a) == multiset(b)
    ensures CountIf(a, f) == CountIf(b, f)
    decreases |a|
  {
    if |a| > 0 {
      var x := a[|a| - 1];
      var a' := a[..|a| - 1];
      assert a == a' + [x];
      assert x in multiset(b);
      var i :| 0 <= i < |b| && b[i] == x;
      var b' := b[..i] + b[i + 1..];
      assert b == b[..i] + [x] + b[i + 1..];
      assert multiset(a') == multiset(a) - multiset{x};
      assert multiset(b') == multiset(b) - multiset{x};
      CountIfPermutation(a', b', f);
      CountIfRemoveAt(b, i, f);
    } else {
      assert multiset(b) == multiset{};
    }
  }
}
