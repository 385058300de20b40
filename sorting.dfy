/** The stable sort behind `stream().sorted(Comparator.comparing(key))`, and
    the `filter` that precedes it, over sequences. */
module Sorting {

  predicate SortedBy<T>(s: seq<T>, key: T -> int) {
    forall i, j :: 0 <= i < j < |s| ==> key(s[i]) <= key(s[j])
  }

  /** Two sequences with equal multisets: the last element of `a` stands
      at some index `k` of `b`, and what remains of each has equal multisets. */
  lemma PickMatch<T>(a: seq<T>, b: seq<T>) returns (k: nat)
    requires a != [] && multiset(a) == multiset(b)
    ensures k < |b| && b[k] == a[|a| - 1]
    ensures b == b[..k] + [b[k]] + b[k + 1..]
    ensures multiset(a[..|a| - 1]) == multiset(b[..k] + b[k + 1..])
  {
    var x, init := a[|a| - 1], a[..|a| - 1];
    assert a == init + [x];
    assert x in multiset(b);
    k :| 0 <= k < |b| && b[k] == x;
    var pre, post := b[..k], b[k + 1..];
    assert b == pre + [x] + post;
    var mi, mr := multiset(init), multiset(pre + post);
    assert multiset(a) == mi + multiset{x};
    assert multiset(b) == multiset(pre) + multiset{x} + multiset(post);
    assert mr == multiset(pre) + multiset(post);
    assert mi == (mi + multiset{x}) - multiset{x};
    assert mr == (mr + multiset{x}) - multiset{x};
  }

  /** Place `x` after every element whose key is at most its own. */
  function Insert<T>(s: seq<T>, x: T, key: T -> int): (r: seq<T>)
    ensures |r| == |s| + 1
  {
    if s == [] || key(s[|s| - 1]) <= key(x) then s + [x]
    else Insert(s[..|s| - 1], x, key) + [s[|s| - 1]]
  }

  /** Inserting adds `x` and loses nothing. */
  lemma {:induction false} InsertPermutes<T>(s: seq<T>, x: T, key: T -> int)
    ensures multiset(Insert(s, x, key)) == multiset(s) + multiset{x}
  {
    if s != [] && key(s[|s| - 1]) > key(x) {
      var init, last := s[..|s| - 1], s[|s| - 1];
      assert s == init + [last];
      InsertPermutes(init, x, key);
    }
  }

  /** Appending an element no smaller than any key keeps a sequence sorted. */
  lemma {:induction false} SnocSorted<T>(p: seq<T>, y: T, key: T -> int)
    requires SortedBy(p, key)
    requires forall k :: 0 <= k < |p| ==> key(p[k]) <= key(y)
    ensures SortedBy(p + [y], key)
  {
    var q := p + [y];
    forall i, j | 0 <= i < j < |q| ensures key(q[i]) <= key(q[j]) {
      assert q[i] == p[i];
      if j < |p| { assert q[j] == p[j]; }
    }
  }

  /** Inserting into a sorted sequence keeps it sorted. */
  lemma {:induction false} InsertSorted<T>(s: seq<T>, x: T, key: T -> int)
    requires SortedBy(s, key)
    ensures SortedBy(Insert(s, x, key), key)
  {
    if s == [] || key(s[|s| - 1]) <= key(x) {
      forall k | 0 <= k < |s| ensures key(s[k]) <= key(x) {
        assert key(s[k]) <= key(s[|s| - 1]);
      }
      SnocSorted(s, x, key);
    } else {
      var init, last := s[..|s| - 1], s[|s| - 1];
      InitSorted(s, key);
      InsertSorted(init, x, key);
      InsertPermutes(init, x, key);
      var p := Insert(init, x, key);
      forall k | 0 <= k < |p| ensures key(p[k]) <= key(last) {
        assert p[k] in multiset(p);
        if p[k] != x {
          assert p[k] in multiset(init);
          var m :| 0 <= m < |init| && init[m] == p[k];
          assert init[m] == s[m];
        }
      }
      SnocSorted(p, last, key);
    }
  }

  /** Insertion sort. */
  function SortBy<T>(s: seq<T>, key: T -> int): (r: seq<T>)
    ensures |r| == |s|
  {
    if s == [] then []
    else Insert(SortBy(s[..|s| - 1], key), s[|s| - 1], key)
  }

  /** The sort is a permutation of its input. */
  lemma {:induction false} SortByPermutes<T>(s: seq<T>, key: T -> int)
    ensures multiset(SortBy(s, key)) == multiset(s)
  {
    if s != [] {
      var init, last := s[..|s| - 1], s[|s| - 1];
      assert s == init + [last];
      SortByPermutes(init, key);
      InsertPermutes(SortBy(init, key), last, key);
    }
  }

  /** The sort is sorted. */
  lemma {:induction false} SortByOrdered<T>(s: seq<T>, key: T -> int)
    ensures SortedBy(SortBy(s, key), key)
  {
    if s != [] {
      SortByOrdered(s[..|s| - 1], key);
      InsertSorted(SortBy(s[..|s| - 1], key), s[|s| - 1], key);
    }
  }

  /** Sorting keeps an already sorted sequence as it is. */
  lemma {:induction false} SortBySorted<T>(s: seq<T>, key: T -> int)
    requires SortedBy(s, key)
    ensures SortBy(s, key) == s
  {
    if s != [] {
      var init, x := s[..|s| - 1], s[|s| - 1];
      assert SortedBy(init, key) by { InitSorted(s, key); }
      assert SortBy(init, key) == init by { SortBySorted(init, key); }
      assert Insert(init, x, key) == init + [x] by {
        if init != [] {
          assert init[|init| - 1] == s[|s| - 2];
          assert key(s[|s| - 2]) <= key(x);
        }
      }
      assert SortBy(s, key) == Insert(SortBy(init, key), x, key);
      assert s == init + [x];
    }
  }

  /** Dropping the last element keeps a sequence sorted. */
  lemma {:induction false} InitSorted<T>(s: seq<T>, key: T -> int)
    requires s != [] && SortedBy(s, key)
    ensures SortedBy(s[..|s| - 1], key)
  {
    var init := s[..|s| - 1];
    forall i, j | 0 <= i < j < |init| ensures key(init[i]) <= key(init[j]) {
      assert init[i] == s[i] && init[j] == s[j];
    }
  }

  /** An element whose key is at least every other key lands at the end. */
  lemma {:induction false} SortByAppendLargest<T>(s: seq<T>, x: T, key: T -> int)
    requires forall i :: 0 <= i < |s| ==> key(s[i]) <= key(x)
    ensures SortBy(s + [x], key) == SortBy(s, key) + [x]
  {
    var t := SortBy(s, key);
    assert (s + [x])[..|s|] == s;
    SortByPermutes(s, key);
    if t != [] {
      var last := t[|t| - 1];
      assert last in multiset(s);
      var m :| 0 <= m < |s| && s[m] == last;
    }
  }

  /** Every key of `s + [x]` is at most `key(y)` when every key of `s` is at
      most `key(x)` and `key(x) <= key(y)`. */
  lemma {:induction false} AllAtMost<T>(s: seq<T>, x: T, y: T, key: T -> int)
    requires forall i :: 0 <= i < |s| ==> key(s[i]) <= key(x)
    requires key(x) <= key(y)
    ensures forall i :: 0 <= i < |s + [x]| ==> key((s + [x])[i]) <= key(y)
  {
    forall i | 0 <= i < |s + [x]| ensures key((s + [x])[i]) <= key(y) {
      if i < |s| { assert (s + [x])[i] == s[i]; }
    }
  }

  /** Two elements appended in key order, no smaller than any key before
      them, stay at the end in their order. */
  lemma {:induction false} SortByAppendTwo<T>(s: seq<T>, x: T, y: T, key: T -> int)
    requires forall i :: 0 <= i < |s| ==> key(s[i]) <= key(x)
    requires key(x) <= key(y)
    ensures SortBy(s + [x, y], key) == SortBy(s, key) + [x, y]
  {
    var t := s + [x];
    assert s + [x, y] == t + [y];
    AllAtMost(s, x, y, key);
    calc {
      SortBy(s + [x, y], key);
      SortBy(t + [y], key);
      { SortByAppendLargest(t, y, key); }
      SortBy(t, key) + [y];
      { SortByAppendLargest(s, x, key); }
      (SortBy(s, key) + [x]) + [y];
      SortBy(s, key) + [x, y];
    }
  }

  /** The elements of `s` whose key is at most `bound`, in their order. */
  function UpTo<T>(s: seq<T>, key: T -> int, bound: int): (r: seq<T>)
    ensures |r| <= |s|
    ensures forall i :: 0 <= i < |r| ==> key(r[i]) <= bound
  {
    if s == [] then []
    else
      var init := s[..|s| - 1];
      if key(s[|s| - 1]) <= bound then UpTo(init, key, bound) + [s[|s| - 1]] else UpTo(init, key, bound)
  }

  /** Filtering only drops elements. */
  lemma {:induction false} UpToSubset<T>(s: seq<T>, key: T -> int, bound: int)
    ensures multiset(UpTo(s, key, bound)) <= multiset(s)
  {
    if s != [] {
      var init, last := s[..|s| - 1], s[|s| - 1];
      assert s == init + [last];
      UpToSubset(init, key, bound);
    }
  }

  /** Filtering keeps each element within the bound as often as it occurs,
      and drops every other. */
  lemma {:induction false} UpToCount<T>(s: seq<T>, key: T -> int, bound: int, x: T)
    ensures multiset(UpTo(s, key, bound))[x] == if key(x) <= bound then multiset(s)[x] else 0
  {
    if s != [] {
      var init, last := s[..|s| - 1], s[|s| - 1];
      assert s == init + [last];
      UpToCount(init, key, bound, x);
    }
  }

  /** Filtering keeps every element within the bound. */
  lemma {:induction false} UpToKeeps<T>(s: seq<T>, key: T -> int, bound: int, x: T)
    requires x in s && key(x) <= bound
    ensures x in UpTo(s, key, bound)
  {
    var init := s[..|s| - 1];
    assert s == init + [s[|s| - 1]];
    if x != s[|s| - 1] {
      assert x in init;
      UpToKeeps(init, key, bound, x);
    }
  }

  /** Filtering a sequence whose first `n` keys are within the bound and whose
      other keys are above it keeps exactly that prefix. */
  lemma {:induction false} UpToPrefix<T>(s: seq<T>, key: T -> int, bound: int, n: nat)
    requires n <= |s|
    requires forall i :: 0 <= i < n ==> key(s[i]) <= bound
    requires forall i :: n <= i < |s| ==> key(s[i]) > bound
    ensures UpTo(s, key, bound) == s[..n]
  {
    if s != [] {
      var init, x := s[..|s| - 1], s[|s| - 1];
      assert forall i :: 0 <= i < |init| ==> init[i] == s[i];
      if n == |s| {
        UpToPrefix(init, key, bound, n - 1);
        calc {
          UpTo(s, key, bound);
          UpTo(init, key, bound) + [x];
          init[..n - 1] + [x];
          { assert init[..n - 1] == init; }
          init + [x];
          { assert s == init + [x]; }
          s;
          { assert s[..n] == s; }
          s[..n];
        }
      } else {
        UpToPrefix(init, key, bound, n);
        calc {
          UpTo(s, key, bound);
          UpTo(init, key, bound);
          init[..n];
          s[..n];
        }
      }
    }
  }
}
