/**
 * Insertion-ordered dictionaries: a Python dict or defaultdict as a sequence of
 * (key, value) pairs, new keys appended at the end.
 */
module OrderedDict {
  import opened Wrappers

  /** `d.get(k)` on an ordered dict. */
  function At<K(==), V>(d: seq<(K, V)>, k: K): Option<V> {
    if d == [] then None else if d[0].0 == k then Some(d[0].1) else At(d[1..], k)
  }

  function KeysOf<K, V>(d: seq<(K, V)>): seq<K> {
    seq(|d|, i requires 0 <= i < |d| => d[i].0)
  }

  predicate Distinct<K(==)>(ks: seq<K>) {
    forall i, j :: 0 <= i < j < |ks| ==> ks[i] != ks[j]
  }

  /** `d[k] = f(d[k])` on a defaultdict whose default is `init`. */
  function Upsert<K(==), V>(d: seq<(K, V)>, k: K, init: V, f: V -> V): seq<(K, V)> {
    if d == [] then [(k, f(init))]
    else if d[0].0 == k then [(k, f(d[0].1))] + d[1..]
    else [d[0]] + Upsert(d[1..], k, init, f)
  }

  /** A new key goes last; the other entries keep their places and values. */
  lemma {:induction false} UpsertKeys<K, V>(d: seq<(K, V)>, k: K, init: V, f: V -> V)
    ensures var r := Upsert(d, k, init, f);
      KeysOf(r) == (if k in KeysOf(d) then KeysOf(d) else KeysOf(d) + [k]) &&
      forall i :: 0 <= i < |d| && d[i].0 != k ==> r[i] == d[i]
  {
    if d != [] {
      assert KeysOf(d) == [d[0].0] + KeysOf(d[1..]);
      if d[0].0 == k {
        assert KeysOf(d)[0] == k;
      } else {
        var rest := Upsert(d[1..], k, init, f);
        UpsertKeys(d[1..], k, init, f);
        assert KeysOf([d[0]] + rest) == [d[0].0] + KeysOf(rest);
      }
    }
  }

  lemma {:induction false} AtUpsert<K, V>(d: seq<(K, V)>, k: K, init: V, f: V -> V, key: K)
    ensures At(Upsert(d, k, init, f), key) ==
      if key == k then Some(f(At(d, k).GetOr(init))) else At(d, key)
  {
    if d != [] && d[0].0 != k {
      AtUpsert(d[1..], k, init, f, key);
    }
  }

  lemma {:induction false} AtKeys<K, V>(d: seq<(K, V)>, k: K)
    ensures At(d, k).Some? <==> k in KeysOf(d)
  {
    if d != [] {
      AtKeys(d[1..], k);
      assert KeysOf(d) == [d[0].0] + KeysOf(d[1..]);
    }
  }

  lemma UpsertDistinct<K, V>(d: seq<(K, V)>, k: K, init: V, f: V -> V)
    requires Distinct(KeysOf(d))
    ensures Distinct(KeysOf(Upsert(d, k, init, f)))
  {
    UpsertKeys(d, k, init, f);
  }

  /** With distinct keys, the value found for a key is the one at its position. */
  lemma {:induction false} AtFirst<K, V>(d: seq<(K, V)>, i: nat)
    requires i < |d| && Distinct(KeysOf(d))
    ensures At(d, d[i].0) == Some(d[i].1)
  {
    if i > 0 {
      assert KeysOf(d)[0] != KeysOf(d)[i];
      assert KeysOf(d[1..]) == KeysOf(d)[1..];
      AtFirst(d[1..], i - 1);
    }
  }

  /** With distinct keys, the first key does not occur again. */
  lemma HeadKeyUnique<K, V>(d: seq<(K, V)>)
    requires d != [] && Distinct(KeysOf(d))
    ensures d[0].0 !in KeysOf(d[1..])
  {
    forall j | 0 <= j < |KeysOf(d[1..])| ensures KeysOf(d[1..])[j] != d[0].0 {
      assert KeysOf(d[1..])[j] == KeysOf(d)[j + 1];
      assert KeysOf(d)[0] != KeysOf(d)[j + 1];
    }
  }
}
