/** The `order(column)` of the storage queries: a lexicographic order on
    strings (by character code) and a sort of a sequence by a string key,
    ascending or descending. */
module Ordering {

  /** `a` comes no later than `b` in lexicographic order. */
  predicate StrLe(a: string, b: string)
  {
    a == [] || (b != [] && (a[0] < b[0] || (a[0] == b[0] && StrLe(a[1..], b[1..]))))
  }

  lemma {:induction false} StrLeTotal(a: string, b: string)
    ensures StrLe(a, b) || StrLe(b, a)
  {
    if a != [] && b != [] && a[0] == b[0] {
      StrLeTotal(a[1..], b[1..]);
    }
  }

  lemma {:induction false} StrLeTransitive(a: string, b: string, c: string)
    requires StrLe(a, b) && StrLe(b, c)
    ensures StrLe(a, c)
  {
    if a != [] && b != [] && c != [] && a[0] == b[0] == c[0] {
      StrLeTransitive(a[1..], b[1..], c[1..]);
    }
  }

  /** `x` may precede `y` in the chosen direction. */
  predicate InOrder(x: string, y: string, descending: bool)
  {
    if descending then StrLe(y, x) else StrLe(x, y)
  }

  predicate SortedBy<T>(s: seq<T>, key: T -> string, descending: bool)
  {
    forall i, j :: 0 <= i < j < |s| ==> InOrder(key(s[i]), key(s[j]), descending)
  }

  lemma InOrderTotal(x: string, y: string, descending: bool)
    ensures InOrder(x, y, descending) || InOrder(y, x, descending)
  {
    StrLeTotal(x, y);
  }

  lemma InOrderTransitive(x: string, y: string, z: string, descending: bool)
    requires InOrder(x, y, descending) && InOrder(y, z, descending)
    ensures InOrder(x, z, descending)
  {
    if descending { StrLeTransitive(z, y, x); } else { StrLeTransitive(x, y, z); }
  }

  /** Every element of `s` may follow `h`. */
  predicate AllAfter<T>(h: T, s: seq<T>, key: T -> string, descending: bool)
  {
    forall k :: 0 <= k < |s| ==> InOrder(key(h), key(s[k]), descending)
  }

  lemma ConsSorted<T>(h: T, s: seq<T>, key: T -> string, descending: bool)
    requires SortedBy(s, key, descending) && AllAfter(h, s, key, descending)
    ensures SortedBy([h] + s, key, descending)
  {
    var r := [h] + s;
    forall i, j | 0 <= i < j < |r| ensures InOrder(key(r[i]), key(r[j]), descending) {
      assert r[j] == s[j - 1];
      if i > 0 { assert r[i] == s[i - 1]; }
    }
  }

  lemma SortedHeadFirst<T>(x: T, s: seq<T>, key: T -> string, descending: bool)
    requires SortedBy(s, key, descending) && s != [] && InOrder(key(x), key(s[0]), descending)
    ensures AllAfter(x, s, key, descending)
  {
    forall k | 0 <= k < |s| ensures InOrder(key(x), key(s[k]), descending) {
      if k > 0 { InOrderTransitive(key(x), key(s[0]), key(s[k]), descending); }
    }
  }

  /** If `h` may precede `x` and every element of `t`, it may precede every
      element of a permutation of `t` with `x` added. */
  lemma AllAfterPermutation<T>(h: T, x: T, t: seq<T>, r: seq<T>, key: T -> string, descending: bool)
    requires multiset(r) == multiset(t) + multiset{x}
    requires InOrder(key(h), key(x), descending) && AllAfter(h, t, key, descending)
    ensures AllAfter(h, r, key, descending)
  {
    forall k | 0 <= k < |r| ensures InOrder(key(h), key(r[k]), descending) {
      assert r[k] in multiset(r);
      if r[k] != x {
        assert r[k] in multiset(t);
        var j :| 0 <= j < |t| && t[j] == r[k];
      }
    }
  }

  /** Inserts `x` into a sorted sequence, keeping it sorted. */
  function Insert<T(==)>(x: T, s: seq<T>, key: T -> string, descending: bool): (r: seq<T>)
    requires SortedBy(s, key, descending)
    ensures multiset(r) == multiset(s) + multiset{x}
    ensures SortedBy(r, key, descending)
  {
    if s == [] then [x]
    else if InOrder(key(x), key(s[0]), descending) then
      SortedHeadFirst(x, s, key, descending);
      ConsSorted(x, s, key, descending);
      [x] + s
    else
      InOrderTotal(key(x), key(s[0]), descending);
      var rest := Insert(x, s[1..], key, descending);
      assert AllAfter(s[0], s[1..], key, descending);
      AllAfterPermutation(s[0], x, s[1..], rest, key, descending);
      ConsSorted(s[0], rest, key, descending);
      assert s == [s[0]] + s[1..];
      [s[0]] + rest
  }

  /** Insertion sort: a sorted permutation of `s`. */
  function SortBy<T(==)>(s: seq<T>, key: T -> string, descending: bool): (r: seq<T>)
    ensures multiset(r) == multiset(s)
    ensures SortedBy(r, key, descending)
  {
    if s == [] then []
    else
      assert s == [s[0]] + s[1..];
      Insert(s[0], SortBy(s[1..], key, descending), key, descending)
  }
}
