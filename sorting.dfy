/**
 * Python's `sorted(items, key=key, reverse=True)`: a stable sort that puts the items with
 * larger keys first.  Keys are numbers; an int key is compared as the real it denotes.
 */
module Sorting {
  /** Keys never increase from left to right. */
  predicate Descending<T>(s: seq<T>, key: T -> real) {
    forall i, j :: 0 <= i < j < |s| ==> key(s[i]) >= key(s[j])
  }

  /** Insert an item after every item with at least its key, which keeps ties in their order. */
  function InsertDescending<T(==)>(x: T, s: seq<T>, key: T -> real): (r: seq<T>)
    requires Descending(s, key)
    ensures Descending(r, key) && multiset(r) == multiset(s) + multiset{x}
  {
    if s == [] then [x]
    else if key(s[0]) >= key(x) then
      var rest := InsertDescending(x, s[1..], key);
      assert s == [s[0]] + s[1..];
      forall j | 0 <= j < |rest| ensures key(s[0]) >= key(rest[j]) {
        assert rest[j] in multiset(rest);
        assert rest[j] in s[1..] || rest[j] == x;
      }
      [s[0]] + rest
    else [x] + s
  }

  /** The stable sort, largest key first: a permutation of its input. */
  function SortDescending<T(==)>(s: seq<T>, key: T -> real): (r: seq<T>)
    ensures Descending(r, key) && multiset(r) == multiset(s)
  {
    if s == [] then []
    else
      assert s == s[..|s| - 1] + [s[|s| - 1]];
      InsertDescending(s[|s| - 1], SortDescending(s[..|s| - 1], key), key)
  }

  /** The number paired with an item, as a sort key. */
  function Second<K>(p: (K, int)): real {
    p.1 as real
  }

  /** The first `n` items of a list, `s[:n]`. */
  function Take<T>(s: seq<T>, n: nat): (r: seq<T>)
    ensures |r| == if |s| < n then |s| else n
    ensures r == s[..|r|]
  {
    if |s| <= n then s else s[..n]
  }

  /** Sorting keeps exactly the items it was given. */
  lemma SortedMembers<T>(s: seq<T>, key: T -> real)
    ensures forall x :: x in SortDescending(s, key) <==> x in s
  {
    var r := SortDescending(s, key);
    forall x ensures x in r <==> x in s {
      assert x in r <==> x in multiset(r);
      assert x in s <==> x in multiset(s);
    }
  }

  /**
   * The first `n` items after sorting are at most `n` items of the input, and no item left
   * out has a larger key than an item kept.
   */
  lemma TopDominates<T>(s: seq<T>, key: T -> real, n: nat)
    ensures |Take(SortDescending(s, key), n)| == if |s| < n then |s| else n
    ensures forall p :: p in Take(SortDescending(s, key), n) ==> p in s
    ensures forall p, q :: p in Take(SortDescending(s, key), n) && q in s && q !in Take(SortDescending(s, key), n) ==>
      key(p) >= key(q)
  {
    var sorted := SortDescending(s, key);
    var top := Take(sorted, n);
    assert |sorted| == |s| by {
      assert |multiset(sorted)| == |multiset(s)|;
    }
    forall p | p in top ensures p in s {
      assert p in multiset(sorted);
    }
    forall p, q | p in top && q in s && q !in top ensures key(p) >= key(q) {
      assert q in multiset(sorted);
      var j :| 0 <= j < |sorted| && sorted[j] == q;
      var i :| 0 <= i < |top| && top[i] == p;
      assert j >= |top|;
      assert sorted[i] == p;
    }
  }

  /**
   * `max(s, key=key)`: the position of the first item with the largest key (a later item
   * replaces the current one only when its key is strictly larger).
   */
  function FirstMax<T>(s: seq<T>, key: T -> real): (m: nat)
    requires s != []
    ensures m < |s|
    ensures forall i :: 0 <= i < |s| ==> key(s[i]) <= key(s[m])
    ensures forall i :: 0 <= i < m ==> key(s[i]) < key(s[m])
  {
    if |s| == 1 then 0
    else
      var m := FirstMax(s[..|s| - 1], key);
      if key(s[|s| - 1]) > key(s[m]) then |s| - 1 else m
  }

  /** `min(s, key=key)`: the position of the first item with the smallest key. */
  function FirstMin<T>(s: seq<T>, key: T -> real): (m: nat)
    requires s != []
    ensures m < |s|
    ensures forall i :: 0 <= i < |s| ==> key(s[m]) <= key(s[i])
    ensures forall i :: 0 <= i < m ==> key(s[m]) < key(s[i])
  {
    if |s| == 1 then 0
    else
      var m := FirstMin(s[..|s| - 1], key);
      if key(s[|s| - 1]) < key(s[m]) then |s| - 1 else m
  }

  // ---------------------------------------------------------------------------
  // Python's order on strings, and `sorted(d.items())` for string keys

  /** `a <= b` for Python strings: character by character, a proper prefix first. */
  predicate StrLe(a: string, b: string)
    decreases |a|
  {
    a == [] || (b != [] && (a[0] < b[0] || (a[0] == b[0] && StrLe(a[1..], b[1..]))))
  }

  /** Any two strings are ordered one way or the other. */
  lemma {:induction false} StrLeTotal(a: string, b: string)
    ensures StrLe(a, b) || StrLe(b, a)
    decreases |a|
  {
    if a != [] && b != [] && a[0] == b[0] {
      StrLeTotal(a[1..], b[1..]);
    }
  }

  /** The order is transitive. */
  lemma {:induction false} StrLeTrans(a: string, b: string, c: string)
    requires StrLe(a, b) && StrLe(b, c)
    ensures StrLe(a, c)
    decreases |a|
  {
    if a != [] && a[0] == b[0] && b[0] == c[0] {
      StrLeTrans(a[1..], b[1..], c[1..]);
    }
  }

  /** Two strings each at most the other are equal. */
  lemma {:induction false} StrLeAntisymmetric(a: string, b: string)
    requires StrLe(a, b) && StrLe(b, a)
    ensures a == b
    decreases |a|
  {
    if a != [] {
      StrLeAntisymmetric(a[1..], b[1..]);
      assert a == [a[0]] + a[1..] && b == [b[0]] + b[1..];
    }
  }

  /** The keys never decrease from left to right. */
  predicate KeysAscending<T>(s: seq<(string, T)>) {
    forall i, j :: 0 <= i < j < |s| ==> StrLe(s[i].0, s[j].0)
  }

  /** Insert an item after every item whose key is at most its own, which keeps ties in their order. */
  function InsertByKey<T(==)>(x: (string, T), s: seq<(string, T)>): (r: seq<(string, T)>)
    requires KeysAscending(s)
    ensures KeysAscending(r) && multiset(r) == multiset(s) + multiset{x}
  {
    if s == [] then [x]
    else if StrLe(s[0].0, x.0) then
      var rest := InsertByKey(x, s[1..]);
      assert s == [s[0]] + s[1..];
      forall j | 0 <= j < |rest| ensures StrLe(s[0].0, rest[j].0) {
        assert rest[j] in multiset(rest);
        assert rest[j] in s[1..] || rest[j] == x;
      }
      [s[0]] + rest
    else
      StrLeTotal(s[0].0, x.0);
      forall j | 0 <= j < |s| ensures StrLe(x.0, s[j].0) {
        if j > 0 {
          StrLeTrans(x.0, s[0].0, s[j].0);
        }
      }
      [x] + s
  }

  /** `sorted(d.items())` for a dict with string keys: ascending keys, a permutation of the items. */
  function SortByKey<T(==)>(s: seq<(string, T)>): (r: seq<(string, T)>)
    ensures KeysAscending(r) && multiset(r) == multiset(s)
  {
    if s == [] then []
    else
      assert s == s[..|s| - 1] + [s[|s| - 1]];
      InsertByKey(s[|s| - 1], SortByKey(s[..|s| - 1]))
  }
}
