/** Images and sums of sequences, and their invariance under permutation. */
module Sequences {

  /** `s.map(f)`. */
  function Image<T, U>(s: seq<T>, f: T -> U): (r: seq<U>)
    ensures |r| == |s|
    ensures forall i :: 0 <= i < |s| ==> r[i] == f(s[i])
  {
    if s == [] then [] else [f(s[0])] + Image(s[1..], f)
  }

  lemma ImageAppend<T, U>(a: seq<T>, b: seq<T>, f: T -> U)
    ensures Image(a + b, f) == Image(a, f) + Image(b, f)
  {
    assert forall i :: 0 <= i < |a + b| ==> Image(a + b, f)[i] == (Image(a, f) + Image(b, f))[i];
  }

  /** Two sequences whose elements have pairwise equal images have equal
      images. */
  lemma ImagePointwise<T, V, U>(a: seq<T>, f: T -> U, b: seq<V>, g: V -> U)
    requires |a| == |b| && forall i :: 0 <= i < |a| ==> f(a[i]) == g(b[i])
    ensures Image(a, f) == Image(b, g)
  {
    assert forall i :: 0 <= i < |a| ==> Image(a, f)[i] == Image(b, g)[i];
  }

  function Sum(xs: seq<int>): int {
    if xs == [] then 0 else xs[0] + Sum(xs[1..])
  }

  lemma {:induction false} SumAppend(a: seq<int>, b: seq<int>)
    ensures Sum(a + b) == Sum(a) + Sum(b)
  {
    if a != [] {
      assert (a + b)[1..] == a[1..] + b;
      SumAppend(a[1..], b);
    } else {
      assert a + b == b;
    }
  }

  /** Taking the element at `i` out of `b`. */
  lemma RemoveAt<T>(b: seq<T>, i: nat)
    requires i < |b|
    ensures b == b[..i] + [b[i]] + b[i + 1..]
    ensures multiset(b) == multiset(b[..i] + b[i + 1..]) + multiset{b[i]}
  {
    assert b == b[..i] + [b[i]] + b[i + 1..];
  }

  lemma Cancel<T>(m: multiset<T>, n: multiset<T>, x: T)
    requires m + multiset{x} == n + multiset{x}
    ensures m == n
  {
    assert m == (m + multiset{x}) - multiset{x};
    assert n == (n + multiset{x}) - multiset{x};
  }

  /** Reordering the elements reorders their images. */
  lemma {:induction false} PermutationImage<T, U>(a: seq<T>, b: seq<T>, f: T -> U)
    requires multiset(a) == multiset(b)
    ensures multiset(Image(a, f)) == multiset(Image(b, f))
    decreases |a|
  {
    if a == [] {
      assert |multiset(b)| == 0;
    } else {
      assert a[0] in multiset(b);
      var i :| 0 <= i < |b| && b[i] == a[0];
      RemoveAt(b, i);
      var rest := b[..i] + b[i + 1..];
      assert a == [a[0]] + a[1..];
      assert multiset(a) == multiset(a[1..]) + multiset{a[0]};
      Cancel(multiset(a[1..]), multiset(rest), a[0]);
      PermutationImage(a[1..], rest, f);
      ImageAppend(b[..i] + [b[i]], b[i + 1..], f);
      ImageAppend(b[..i], [b[i]], f);
      ImageAppend(b[..i], b[i + 1..], f);
    }
  }

  /** Reordering a sequence of numbers keeps its sum. */
  lemma {:induction false} PermutationSum(a: seq<int>, b: seq<int>)
    requires multiset(a) == multiset(b)
    ensures Sum(a) == Sum(b)
    decreases |a|
  {
    if a == [] {
      assert |multiset(b)| == 0;
    } else {
      assert a[0] in multiset(b);
      var i :| 0 <= i < |b| && b[i] == a[0];
      RemoveAt(b, i);
      var rest := b[..i] + b[i + 1..];
      assert a == [a[0]] + a[1..];
      assert multiset(a) == multiset(a[1..]) + multiset{a[0]};
      Cancel(multiset(a[1..]), multiset(rest), a[0]);
      PermutationSum(a[1..], rest);
      SumAppend(b[..i] + [b[i]], b[i + 1..]);
      SumAppend(b[..i], [b[i]]);
      SumAppend(b[..i], b[i + 1..]);
    }
  }
}
