/** The slice sort the power engine calls (`sort_by` with a comparison on one
    `f64` key): a stable sort, written here as insertion sort by a real key,
    ascending. A descending sort is the ascending sort by the negated key. */
module Sorting {

  /** `s` is in ascending order of `key` */
  ghost predicate SortedBy<T>(s: seq<T>, key: T -> real) {
    forall i, j :: 0 <= i < j < |s| ==> key(s[i]) <= key(s[j])
  }

  /** Insert `x` in front of the first element whose key is not smaller, so
      that an element inserted earlier stays ahead of equal keys */
  function Insert<T>(x: T, s: seq<T>, key: T -> real): (r: seq<T>)
    ensures |r| == |s| + 1
    ensures multiset(r) == multiset(s) + multiset{x}
    ensures SortedBy(s, key) ==> SortedBy(r, key)
  {
    if |s| == 0 then [x]
    else if key(x) <= key(s[0]) then [x] + s
    else
      var rest := Insert(x, s[1..], key);
      assert s == [s[0]] + s[1..];
      assert SortedBy(s, key) ==> forall k :: 0 <= k < |rest| ==> key(s[0]) <= key(rest[k]) by {
        if SortedBy(s, key) {
          HeadBelowRest(s, x, rest, key);
        }
      }
      [s[0]] + rest
  }

  /** In a sorted `s`, the head's key is at most the key of every element of
      `x` inserted into the tail, when `x`'s key is above the head's */
  lemma HeadBelowRest<T>(s: seq<T>, x: T, rest: seq<T>, key: T -> real)
    requires |s| > 0 && SortedBy(s, key) && key(s[0]) < key(x)
    requires multiset(rest) == multiset(s[1..]) + multiset{x}
    ensures forall k :: 0 <= k < |rest| ==> key(s[0]) <= key(rest[k])
  {
    forall k | 0 <= k < |rest|
      ensures key(s[0]) <= key(rest[k])
    {
      assert rest[k] in multiset(rest);
      if rest[k] != x {
        assert rest[k] in multiset(s[1..]);
        var m :| 0 <= m < |s[1..]| && s[1..][m] == rest[k];
        assert s[m + 1] == rest[k];
      }
    }
  }

  /** The elements of `s`, sorted ascending by `key` */
  function Sort<T>(s: seq<T>, key: T -> real): (r: seq<T>)
    ensures |r| == |s|
    ensures multiset(r) == multiset(s)
    ensures SortedBy(r, key)
  {
    if |s| == 0 then []
    else
      assert s == [s[0]] + s[1..];
      Insert(s[0], Sort(s[1..], key), key)
  }

  /** The elements of `s` whose key is `k`, in their order in `s` */
  function WithKey<T>(s: seq<T>, key: T -> real, k: real): seq<T> {
    if |s| == 0 then []
    else (if key(s[0]) == k then [s[0]] else []) + WithKey(s[1..], key, k)
  }

  /** Inserting puts `x` ahead of every element with the same key and moves
      no other element past one of its own key */
  lemma {:induction false} InsertKeepsTies<T>(x: T, s: seq<T>, key: T -> real, k: real)
    ensures WithKey(Insert(x, s, key), key, k) == (if key(x) == k then [x] else []) + WithKey(s, key, k)
    decreases |s|
  {
    var r := Insert(x, s, key);
    if |s| == 0 {
      assert r == [x];
      assert r[1..] == [];
    } else if key(x) <= key(s[0]) {
      assert r[0] == x && r[1..] == s;
    } else {
      var rest := Insert(x, s[1..], key);
      assert r[0] == s[0] && r[1..] == rest;
      InsertKeepsTies(x, s[1..], key, k);
      assert WithKey(r, key, k) == (if key(s[0]) == k then [s[0]] else []) + WithKey(rest, key, k);
      assert WithKey(s, key, k) == (if key(s[0]) == k then [s[0]] else []) + WithKey(s[1..], key, k);
    }
  }

  /** The sort is stable: the elements of any one key keep their input order */
  lemma {:induction false} SortStable<T>(s: seq<T>, key: T -> real, k: real)
    ensures WithKey(Sort(s, key), key, k) == WithKey(s, key, k)
    decreases |s|
  {
    if |s| > 0 {
      SortStable(s[1..], key, k);
      InsertKeepsTies(s[0], Sort(s[1..], key), key, k);
    }
  }

  function Identity(x: real): real { x }

  /** Real numbers in ascending order (`sort_by(|a, b| a.partial_cmp(b))`) */
  function SortAsc(s: seq<real>): (r: seq<real>)
    ensures |r| == |s| && multiset(r) == multiset(s)
    ensures forall i, j :: 0 <= i < j < |r| ==> r[i] <= r[j]
  {
    Sort(s, Identity)
  }

  /** An element of a sorted sequence has at most its index many elements
      strictly below it */
  lemma {:induction false} CountBelowSorted(s: seq<real>, k: nat)
    requires k < |s|
    requires forall i, j :: 0 <= i < j < |s| ==> s[i] <= s[j]
    ensures CountBelow(s, s[k]) <= k
  {
    CountBelowPrefix(s, k, s[k]);
  }

  /** How many elements of `s` are strictly below `t` */
  function CountBelow(s: seq<real>, t: real): (n: nat)
    ensures n <= |s|
  {
    if |s| == 0 then 0
    else (if s[|s| - 1] < t then 1 else 0) + CountBelow(s[..|s| - 1], t)
  }

  /** In a sorted sequence nothing at index `k` or later is below `s[k]` */
  lemma {:induction false} CountBelowPrefix(s: seq<real>, k: nat, t: real)
    requires k < |s|
    requires forall i, j :: 0 <= i < j < |s| ==> s[i] <= s[j]
    requires t == s[k]
    ensures CountBelow(s, t) <= k
    decreases |s|
  {
    if |s| - 1 > k {
      var p := s[..|s| - 1];
      assert !(s[|s| - 1] < t);
      assert p[k] == t;
      CountBelowPrefix(p, k, t);
    } else {
      assert CountBelow(s[..|s| - 1], t) <= |s| - 1;
    }
  }

  /** Counting is invariant under permutation */
  lemma {:induction false} CountBelowMultiset(a: seq<real>, b: seq<real>, t: real)
    requires multiset(a) == multiset(b)
    ensures CountBelow(a, t) == CountBelow(b, t)
    decreases |a|
  {
    if |a| > 0 {
      var x := a[|a| - 1];
      assert a == a[..|a| - 1] + [x];
      assert x in multiset(b);
      var i :| 0 <= i < |b| && b[i] == x;
      var b' := b[..i] + b[i + 1..];
      assert b == b[..i] + [x] + b[i + 1..];
      assert multiset(a) == multiset(a[..|a| - 1]) + multiset{x};
      assert multiset(b) == multiset(b[..i]) + multiset{x} + multiset(b[i + 1..]);
      assert multiset(b') == multiset(b[..i]) + multiset(b[i + 1..]);
      assert multiset(a[..|a| - 1]) == multiset(a) - multiset{x};
      assert multiset(b') == multiset(b) - multiset{x};
      CountBelowMultiset(a[..|a| - 1], b', t);
      CountBelowRemove(b, i, t);
    } else {
      assert |b| == |multiset(b)| == 0;
    }
  }

  /** Removing the element at `i` lowers the count by one exactly when that
      element is below `t` */
  lemma {:induction false} CountBelowRemove(b: seq<real>, i: nat, t: real)
    requires i < |b|
    ensures CountBelow(b, t) == CountBelow(b[..i] + b[i + 1..], t) + (if b[i] < t then 1 else 0)
    decreases |b|
  {
    var b' := b[..i] + b[i + 1..];
    if i < |b| - 1 {
      var p := b[..|b| - 1];
      assert b'[..|b'| - 1] == p[..i] + p[i + 1..];
      assert b'[|b'| - 1] == b[|b| - 1];
      CountBelowRemove(p, i, t);
    } else {
      assert b' == b[..|b| - 1];
    }
  }

  /** Counting below a larger threshold counts at least as many */
  lemma {:induction false} CountBelowMonotone(s: seq<real>, t: real, u: real)
    requires t <= u
    ensures CountBelow(s, t) <= CountBelow(s, u)
    decreases |s|
  {
    if |s| > 0 {
      CountBelowMonotone(s[..|s| - 1], t, u);
    }
  }

  /** A prefix whose every element is below `t` is all counted */
  lemma {:induction false} CountBelowPrefixAll(s: seq<real>, m: nat, t: real)
    requires m <= |s|
    requires forall i :: 0 <= i < m ==> s[i] < t
    ensures CountBelow(s, t) >= m
    decreases |s|
  {
    if |s| > m {
      CountBelowPrefixAll(s[..|s| - 1], m, t);
    } else if m > 0 {
      CountBelowPrefixAll(s[..|s| - 1], m - 1, t);
    }
  }
}
