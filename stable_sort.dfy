/** The stable descending sort that `Array.prototype.sort` performs with a
    comparator of the form `(a, b) => key(b) - key(a)` (src/main.js:105 and
    :111). ECMAScript requires the sort to be stable; any stable sort gives the
    same result (lemma StableSortUnique), so an insertion sort stands for it. */
module StableSort {

  /** `s` is ordered by `key`, largest first. */
  ghost predicate SortedDesc<T>(s: seq<T>, key: T -> real) {
    forall i, j :: 0 <= i < j < |s| ==> key(s[i]) >= key(s[j])
  }

  /** The elements of `s` whose key is `v`, in their order in `s`. */
  function Filter<T>(s: seq<T>, key: T -> real, v: real): seq<T>
  {
    if s == [] then []
    else Filter(s[..|s| - 1], key, v) + (if key(s[|s| - 1]) == v then [s[|s| - 1]] else [])
  }

  /** Puts `x` behind every element of `t` whose key is at least `key(x)`. */
  function Insert<T>(x: T, t: seq<T>, key: T -> real): (r: seq<T>)
    ensures multiset(r) == multiset(t) + multiset{x}
    ensures forall y :: y in r ==> y == x || y in t
  {
    if t == [] then [x]
    else if key(t[|t| - 1]) >= key(x) then t + [x]
    else
      assert t == t[..|t| - 1] + [t[|t| - 1]];
      Insert(x, t[..|t| - 1], key) + [t[|t| - 1]]
  }

  /** Insertion sort: each element in turn, from the front, is inserted into
      the sorted prefix. */
  function Sort<T>(s: seq<T>, key: T -> real): (r: seq<T>)
    ensures multiset(r) == multiset(s)
  {
    if s == [] then []
    else
      assert s == s[..|s| - 1] + [s[|s| - 1]];
      Insert(s[|s| - 1], Sort(s[..|s| - 1], key), key)
  }

  lemma {:induction false} InsertSorted<T>(x: T, t: seq<T>, key: T -> real)
    requires SortedDesc(t, key)
    ensures SortedDesc(Insert(x, t, key), key)
  {
    if t != [] && key(t[|t| - 1]) < key(x) {
      var init, last := t[..|t| - 1], t[|t| - 1];
      InsertSorted(x, init, key);
      var r' := Insert(x, init, key);
      forall y | y in r' ensures key(y) >= key(last) {
        if y != x {
          var i :| 0 <= i < |init| && init[i] == y;
          assert t[i] == y;
        }
      }
      assert Insert(x, t, key) == r' + [last];
    }
  }

  /** The sort's result is ordered, largest key first. */
  lemma {:induction false} SortSorted<T>(s: seq<T>, key: T -> real)
    ensures SortedDesc(Sort(s, key), key)
  {
    if s != [] {
      SortSorted(s[..|s| - 1], key);
      InsertSorted(s[|s| - 1], Sort(s[..|s| - 1], key), key);
    }
  }

  lemma {:induction false} FilterInsert<T>(x: T, t: seq<T>, key: T -> real, v: real)
    ensures Filter(Insert(x, t, key), key, v)
         == Filter(t, key, v) + (if key(x) == v then [x] else [])
  {
    if t == [] {
      assert Insert(x, t, key) == [x];
      assert [x][..0] == [];
    } else if key(t[|t| - 1]) >= key(x) {
      assert (t + [x])[..|t|] == t;
    } else {
      var init, last := t[..|t| - 1], t[|t| - 1];
      var r' := Insert(x, init, key);
      FilterInsert(x, init, key, v);
      var r := r' + [last];
      assert Insert(x, t, key) == r;
      assert r[..|r| - 1] == r' && r[|r| - 1] == last;
      assert t[..|t| - 1] == init;
      var lastPart := if key(last) == v then [last] else [];
      assert Filter(r, key, v) == Filter(r', key, v) + lastPart;
      assert Filter(t, key, v) == Filter(init, key, v) + lastPart;
      if key(x) == v {
        assert lastPart == [];
      } else {
        assert Filter(r', key, v) == Filter(init, key, v);
      }
    }
  }

  /** Stability: for every key value, the elements with that key keep their
      relative order. */
  lemma {:induction false} SortStable<T>(s: seq<T>, key: T -> real, v: real)
    ensures Filter(Sort(s, key), key, v) == Filter(s, key, v)
  {
    if s != [] {
      SortStable(s[..|s| - 1], key, v);
      FilterInsert(s[|s| - 1], Sort(s[..|s| - 1], key), key, v);
    }
  }

  lemma FilterLast<T>(s: seq<T>, key: T -> real)
    requires s != []
    ensures Filter(s, key, key(s[|s| - 1])) == Filter(s[..|s| - 1], key, key(s[|s| - 1])) + [s[|s| - 1]]
  {
  }

  /** Filter keeps elements of `s` with key `v` and nothing else. */
  lemma {:induction false} FilterMember<T>(s: seq<T>, key: T -> real, v: real, y: T)
    requires y in Filter(s, key, v)
    ensures y in s && key(y) == v
  {
    var init := s[..|s| - 1];
    if y in Filter(init, key, v) {
      FilterMember(init, key, v, y);
      assert init == s[..|s| - 1];
    }
  }

  /** In a sorted sequence the last element has the smallest key. */
  lemma SortedLastIsLeast<T>(s: seq<T>, key: T -> real, y: T)
    requires SortedDesc(s, key) && y in s
    ensures key(y) >= key(s[|s| - 1])
  {
    var i :| 0 <= i < |s| && s[i] == y;
    if i < |s| - 1 {
      assert key(s[i]) >= key(s[|s| - 1]);
    }
  }

  /** Two sorted sequences with the same elements at every key end in the same
      element. */
  lemma SameLast<T>(a: seq<T>, b: seq<T>, key: T -> real)
    requires a != [] && b != []
    requires SortedDesc(a, key) && SortedDesc(b, key)
    requires Filter(a, key, key(a[|a| - 1])) == Filter(b, key, key(a[|a| - 1]))
    requires Filter(a, key, key(b[|b| - 1])) == Filter(b, key, key(b[|b| - 1]))
    ensures a[|a| - 1] == b[|b| - 1]
  {
    var la, lb := a[|a| - 1], b[|b| - 1];
    FilterLast(a, key);
    FilterLast(b, key);
    assert la in Filter(b, key, key(la));
    FilterMember(b, key, key(la), la);
    SortedLastIsLeast(b, key, la);
    assert lb in Filter(a, key, key(lb));
    FilterMember(a, key, key(lb), lb);
    SortedLastIsLeast(a, key, lb);
    var m := key(la);
    assert key(lb) == m;
    var fa, fb := Filter(a[..|a| - 1], key, m), Filter(b[..|b| - 1], key, m);
    assert fa + [la] == fb + [lb];
    assert (fa + [la])[|fa + [la]| - 1] == la;
    assert (fb + [lb])[|fb + [lb]| - 1] == lb;
  }

  lemma PrefixOfSnoc<T>(x: seq<T>, y: seq<T>, l: T)
    requires x + [l] == y + [l]
    ensures x == y
  {
    assert x == (x + [l])[..|x|];
    assert y == (y + [l])[..|y|];
  }

  /** Dropping that shared last element keeps the per-key contents equal. */
  lemma SameInitFilters<T>(a: seq<T>, b: seq<T>, key: T -> real, v: real)
    requires a != [] && b != [] && a[|a| - 1] == b[|b| - 1]
    requires Filter(a, key, v) == Filter(b, key, v)
    ensures Filter(a[..|a| - 1], key, v) == Filter(b[..|b| - 1], key, v)
  {
    var l := a[|a| - 1];
    var fa, fb := Filter(a[..|a| - 1], key, v), Filter(b[..|b| - 1], key, v);
    if key(l) == v {
      assert Filter(a, key, v) == fa + [l];
      assert Filter(b, key, v) == fb + [l];
      PrefixOfSnoc(fa, fb, l);
    } else {
      assert Filter(a, key, v) == fa + [];
      assert Filter(b, key, v) == fb + [];
      assert fa + [] == fa;
      assert fb + [] == fb;
    }
  }

  /** A sequence sorted by `key` is determined by what it holds at each key:
      two sorted sequences with the same elements, in the same order, at every
      key are equal. So every stable sort agrees with Sort. */
  lemma {:induction false} StableSortUnique<T>(a: seq<T>, b: seq<T>, key: T -> real)
    requires SortedDesc(a, key) && SortedDesc(b, key)
    requires forall v :: Filter(a, key, v) == Filter(b, key, v)
    ensures a == b
    decreases |a|
  {
    if a == [] || b == [] {
      if a != [] || b != [] {
        // The non-empty one holds its last element at that element's key.
        var s := if a != [] then a else b;
        FilterLast(s, key);
        assert false;
      }
    } else {
      assert Filter(a, key, key(a[|a| - 1])) == Filter(b, key, key(a[|a| - 1]));
      assert Filter(a, key, key(b[|b| - 1])) == Filter(b, key, key(b[|b| - 1]));
      SameLast(a, b, key);
      var a', b' := a[..|a| - 1], b[..|b| - 1];
      forall v ensures Filter(a', key, v) == Filter(b', key, v) {
        SameInitFilters(a, b, key, v);
      }
      StableSortUnique(a', b', key);
      assert a == a' + [a[|a| - 1]] && b == b' + [b[|b| - 1]];
    }
  }
}
