/**
 * The dynamically typed values the tool passes around: parsed JSON and YAML
 * documents, Python dicts and lists.  A dict is an association list kept in
 * insertion order (Python dicts iterate in insertion order, and several
 * operations take "the first" key), with at most one entry per key.
 */
module Json {
  import opened Wrappers
  import opened Strings

  datatype Value =
    | Null
    | Bool(b: bool)
    | Int(i: int)
    | Float(r: real)
    | Str(s: string)
    | List(items: seq<Value>)
    | Dict(entries: seq<(string, Value)>)

  type Entries = seq<(string, Value)>

  /** Python truthiness: None, False, 0, 0.0, '', [] and {} are false. */
  predicate Truthy(v: Value) {
    match v
    case Null => false
    case Bool(b) => b
    case Int(i) => i != 0
    case Float(r) => r != 0.0
    case Str(s) => s != ""
    case List(items) => items != []
    case Dict(entries) => entries != []
  }

  /** The keys of a dict, in insertion order. */
  function Keys(entries: Entries): (ks: seq<string>)
    ensures |ks| == |entries|
    ensures forall i :: 0 <= i < |entries| ==> ks[i] == entries[i].0
  {
    if entries == [] then [] else [entries[0].0] + Keys(entries[1..])
  }

  /** `key in d`. */
  predicate HasKey(entries: Entries, k: string) {
    exists i :: 0 <= i < |entries| && entries[i].0 == k
  }

  /** Every key occurs once, as in a Python dict. */
  predicate UniqueKeys(entries: Entries) {
    forall i, j :: 0 <= i < j < |entries| ==> entries[i].0 != entries[j].0
  }

  /** `d.get(key)`: the value stored under the first entry with that key, if any. */
  function Lookup(entries: Entries, k: string): (r: Option<Value>)
    ensures r.Some? <==> HasKey(entries, k)
  {
    if entries == [] then None
    else if entries[0].0 == k then Some(entries[0].1)
    else
      assert HasKey(entries, k) <==> HasKey(entries[1..], k) by {
        if HasKey(entries, k) {
          var i :| 0 <= i < |entries| && entries[i].0 == k;
          assert entries[1..][i - 1].0 == k;
        }
        if HasKey(entries[1..], k) {
          var i :| 0 <= i < |entries[1..]| && entries[1..][i].0 == k;
          assert entries[i + 1].0 == k;
        }
      }
      Lookup(entries[1..], k)
  }

  /** `d[key] = v`: overwrite the entry in place, or append a new one. */
  function Put(entries: Entries, k: string, v: Value): (r: Entries)
    ensures Lookup(r, k) == Some(v)
    ensures forall k' :: k' != k ==> Lookup(r, k') == Lookup(entries, k')
  {
    if entries == [] then [(k, v)]
    else if entries[0].0 == k then [(k, v)] + entries[1..]
    else [entries[0]] + Put(entries[1..], k, v)
  }

  /** Writing a key the dict does not hold appends one entry at the end, keeping insertion order. */
  lemma {:induction false} PutAppends(entries: Entries, k: string, v: Value)
    requires !HasKey(entries, k)
    ensures Put(entries, k, v) == entries + [(k, v)]
  {
    if entries != [] {
      assert entries[0].0 != k;
      assert !HasKey(entries[1..], k) by {
        forall i | 0 <= i < |entries[1..]| ensures entries[1..][i].0 != k {
          assert entries[1..][i] == entries[i + 1];
        }
      }
      PutAppends(entries[1..], k, v);
      assert entries == [entries[0]] + entries[1..];
    }
  }

  /** After `d[key] = v` the dict holds `key` and the keys it held before, and no others. */
  lemma PutHasKey(entries: Entries, k: string, v: Value, k': string)
    ensures HasKey(Put(entries, k, v), k') <==> k' == k || HasKey(entries, k')
  {
    if k' != k {
      assert Lookup(Put(entries, k, v), k') == Lookup(entries, k');
    }
  }

  /** Every entry after `d[key] = v` is the new one or was there before. */
  lemma {:induction false} PutEntries(entries: Entries, k: string, v: Value)
    ensures forall e :: e in Put(entries, k, v) ==> e == (k, v) || e in entries
    decreases |entries|
  {
    if entries != [] && entries[0].0 != k {
      PutEntries(entries[1..], k, v);
    }
  }

  /** A dict holds a key when its first entry or the entries after it do. */
  lemma HasKeyCons(entries: Entries, k: string)
    requires entries != []
    ensures HasKey(entries, k) <==> entries[0].0 == k || HasKey(entries[1..], k)
  {
    if HasKey(entries, k) && entries[0].0 != k {
      var i :| 0 <= i < |entries| && entries[i].0 == k;
      assert entries[1..][i - 1].0 == k;
    }
    if HasKey(entries[1..], k) {
      var i :| 0 <= i < |entries[1..]| && entries[1..][i].0 == k;
      assert entries[i + 1].0 == k;
    }
  }

  /** Every entry after `Update` comes from one of the two dicts. */
  lemma {:induction false} UpdateEntries(base: Entries, extra: Entries)
    ensures forall e :: e in Update(base, extra) ==> e in base || e in extra
    decreases |extra|
  {
    if extra != [] {
      UpdateEntries(Put(base, extra[0].0, extra[0].1), extra[1..]);
      PutEntries(base, extra[0].0, extra[0].1);
    }
  }

  /** `Update` keeps the keys of both dicts and adds no others. */
  lemma {:induction false} UpdateHasKey(base: Entries, extra: Entries, k: string)
    ensures HasKey(Update(base, extra), k) <==> HasKey(base, k) || HasKey(extra, k)
    decreases |extra|
  {
    if extra != [] {
      UpdateHasKey(Put(base, extra[0].0, extra[0].1), extra[1..], k);
      PutHasKey(base, extra[0].0, extra[0].1, k);
      HasKeyCons(extra, k);
    }
  }

  /** The keys of a dict with one more entry at the end. */
  lemma KeysSnoc(entries: Entries, e: (string, Value))
    ensures Keys(entries + [e]) == Keys(entries) + [e.0]
  {
    var a := Keys(entries + [e]);
    var b := Keys(entries) + [e.0];
    assert |a| == |b|;
    forall i | 0 <= i < |a| ensures a[i] == b[i] {
      assert (entries + [e])[i] == if i < |entries| then entries[i] else e;
    }
  }

  /** The keys of two concatenated dicts, in order. */
  lemma KeysAppend(a: Entries, b: Entries)
    ensures Keys(a + b) == Keys(a) + Keys(b)
  {
    var x := Keys(a + b);
    var y := Keys(a) + Keys(b);
    assert |x| == |y|;
    forall i | 0 <= i < |x| ensures x[i] == y[i] {
      assert (a + b)[i] == if i < |a| then a[i] else b[i - |a|];
    }
  }

  /** Dropping the last entry of a dict with unique keys leaves unique keys without the last key. */
  lemma UniqueKeysInit(entries: Entries)
    requires entries != [] && UniqueKeys(entries)
    ensures UniqueKeys(entries[..|entries| - 1])
    ensures !HasKey(entries[..|entries| - 1], entries[|entries| - 1].0)
  {
    var n := |entries| - 1;
    assert forall j :: 0 <= j < n ==> entries[..n][j] == entries[j];
  }

  /** Writing a new key into a dict whose keys follow another's extends both key lists alike. */
  lemma PutNewKeys(data: Entries, entries: Entries, k: string, v: Value, e: (string, Value))
    requires Keys(data) == Keys(entries) && !HasKey(data, k) && e.0 == k
    ensures Keys(Put(data, k, v)) == Keys(entries + [e])
  {
    PutAppends(data, k, v);
    KeysSnoc(data, (k, v));
    KeysSnoc(entries, e);
  }

  /** A dict holds a key when its last entry or the entries before it do. */
  lemma HasKeyInit(entries: Entries, k: string)
    requires entries != []
    ensures HasKey(entries, k) <==> HasKey(entries[..|entries| - 1], k) || entries[|entries| - 1].0 == k
  {
    var init := entries[..|entries| - 1];
    if HasKey(entries, k) && entries[|entries| - 1].0 != k {
      var i :| 0 <= i < |entries| && entries[i].0 == k;
      assert init[i].0 == k;
    }
    if HasKey(init, k) {
      var i :| 0 <= i < |init| && init[i].0 == k;
      assert entries[i].0 == k;
    }
  }

  /** The first entry with a key is the one Lookup finds. */
  lemma {:induction false} LookupAt(e: Entries, i: nat)
    requires i < |e| && forall j :: 0 <= j < i ==> e[j].0 != e[i].0
    ensures Lookup(e, e[i].0) == Some(e[i].1)
  {
    if i > 0 {
      LookupAt(e[1..], i - 1);
    }
  }

  /** Looking a key up in two concatenated dicts finds the first one's entry before the second's. */
  lemma {:induction false} LookupAppend(a: Entries, b: Entries, k: string)
    ensures Lookup(a + b, k) == if HasKey(a, k) then Lookup(a, k) else Lookup(b, k)
  {
    if a != [] {
      assert (a + b)[0] == a[0] && (a + b)[1..] == a[1..] + b;
      if a[0].0 != k {
        LookupAppend(a[1..], b, k);
        assert HasKey(a, k) <==> HasKey(a[1..], k) by {
          if HasKey(a, k) {
            var i :| 0 <= i < |a| && a[i].0 == k;
            assert a[1..][i - 1].0 == k;
          }
          if HasKey(a[1..], k) {
            var i :| 0 <= i < |a[1..]| && a[1..][i].0 == k;
            assert a[i + 1].0 == k;
          }
        }
      } else {
        assert HasKey(a, k);
      }
    } else {
      assert a + b == b;
    }
  }

  /** `{**base, **extra}`: every entry of `extra`, in order, written into `base`. */
  function Update(base: Entries, extra: Entries): (r: Entries)
    decreases |extra|
  {
    if extra == [] then base else Update(Put(base, extra[0].0, extra[0].1), extra[1..])
  }

  /** After `Update`, a key of `extra` has its value from `extra`; any other key keeps its value from `base`. */
  lemma {:induction false} UpdateLookup(base: Entries, extra: Entries, k: string)
    requires UniqueKeys(extra)
    ensures Lookup(Update(base, extra), k) == if HasKey(extra, k) then Lookup(extra, k) else Lookup(base, k)
    decreases |extra|
  {
    if extra != [] {
      var rest := extra[1..];
      assert UniqueKeys(rest) by {
        forall a, b | 0 <= a < b < |rest| ensures rest[a].0 != rest[b].0 {
          assert rest[a] == extra[a + 1] && rest[b] == extra[b + 1];
        }
      }
      UpdateLookup(Put(base, extra[0].0, extra[0].1), rest, k);
      assert extra == [extra[0]] + rest;
      LookupAppend([extra[0]], rest, k);
      if k == extra[0].0 {
        forall j | 0 <= j < |rest| ensures rest[j].0 != k {
          assert rest[j] == extra[j + 1];
        }
      } else {
        assert HasKey(extra, k) <==> HasKey(rest, k) by {
          if HasKey(extra, k) {
            var j :| 0 <= j < |extra| && extra[j].0 == k;
            assert rest[j - 1].0 == k;
          }
          if HasKey(rest, k) {
            var j :| 0 <= j < |rest| && rest[j].0 == k;
            assert extra[j + 1].0 == k;
          }
        }
      }
    }
  }

  /** `v.get(key)` for a value that may not be a dict (None when it is not). */
  function Get(v: Value, k: string): Option<Value> {
    if v.Dict? then Lookup(v.entries, k) else None
  }

  /** `d.get(key, default)`. */
  function GetOr(v: Value, k: string, default: Value): Value {
    Get(v, k).GetOr(default)
  }

  /** `isinstance(d, dict) and key in d`. */
  predicate Has(v: Value, k: string) {
    v.Dict? && HasKey(v.entries, k)
  }

  /** `v.get(key, default)` where `v` may be any value: None stands for the AttributeError a non-dict raises. */
  function PyGet(v: Value, k: string, default: Value): (r: Option<Value>)
    ensures r.Some? <==> v.Dict?
    ensures r.Some? ==> r.value == GetOr(v, k, default)
  {
    if v.Dict? then Some(GetOr(v, k, default)) else None
  }

  /**
   * `key in v` for a string key: membership of a dict's keys or a list's items, a substring
   * test on a string; None stands for the TypeError other values raise.
   */
  function PyIn(k: string, v: Value): (r: Option<bool>)
    ensures v.Dict? ==> r == Some(HasKey(v.entries, k))
    ensures v.List? ==> r == Some(Str(k) in v.items)
    ensures r.None? <==> !(v.Dict? || v.List? || v.Str?)
  {
    match v
    case Dict(entries) => Some(HasKey(entries, k))
    case List(items) => Some(Str(k) in items)
    case Str(s) => Some(Contains(s, k))
    case _ => None
  }

  /** `v[0]`: the first item of a list or the first character of a string; None where Python raises. */
  function Index0(v: Value): (r: Option<Value>)
    ensures v.List? && v.items != [] ==> r == Some(v.items[0])
    ensures r.Some? ==> v.List? || v.Str?
  {
    match v
    case List(items) => if items != [] then Some(items[0]) else None
    case Str(s) => if s != "" then Some(Str([s[0]])) else None
    case _ => None
  }

  /** `for x in v`: the items of a list, the keys of a dict, the characters of a string; None where Python raises. */
  function Iter(v: Value): (r: Option<seq<Value>>)
    ensures v.List? ==> r == Some(v.items)
    ensures v.Dict? ==> r.Some? && |r.value| == |v.entries|
    ensures r.None? <==> !(v.Dict? || v.List? || v.Str?)
  {
    match v
    case List(items) => Some(items)
    case Dict(entries) => Some(seq(|entries|, i requires 0 <= i < |entries| => Str(entries[i].0)))
    case Str(s) => Some(seq(|s|, i requires 0 <= i < |s| => Str([s[i]])))
    case _ => None
  }

  /** An empty dict. */
  const EmptyDict: Value := Dict([])

  /** A list of Python strings. */
  function Strs(items: seq<string>): (r: seq<Value>)
    ensures |r| == |items| && forall i :: 0 <= i < |r| ==> r[i] == Str(items[i])
  {
    seq(|items|, i requires 0 <= i < |items| => Str(items[i]))
  }

  /** A value Python can use as a dict key (or in a key tuple): lists and dicts cannot. */
  predicate Hashable(v: Value) {
    !v.List? && !v.Dict?
  }

  /** Python's `isinstance(v, (int, float))`; bool is a subclass of int. */
  predicate IsNumber(v: Value) {
    v.Bool? || v.Int? || v.Float?
  }

  /** The number a value stands for in a Python comparison with a number; None where that raises. */
  function AsNumber(v: Value): (r: Option<real>)
    ensures r.Some? <==> IsNumber(v)
    ensures v.Int? ==> r == Some(v.i as real)
  {
    match v
    case Bool(b) => Some(if b then 1.0 else 0.0)
    case Int(i) => Some(i as real)
    case Float(x) => Some(x)
    case _ => None
  }

  /** Python's `str(n)` for an integer. */
  function IntText(n: int): string {
    if n < 0 then "-" + NatToString(-n) else NatToString(n)
  }

  /**
   * Python's `str(v)`: a string is itself, other values are their `repr`.  Floats are only
   * rendered exactly when integral (`2.0`); other floats are out of scope and render as 'float'.
   */
  function PyStr(v: Value): string {
    if v.Str? then v.s else Repr(v)
  }

  /** Python's `repr(v)` (strings quoted with single quotes, without escaping). */
  function Repr(v: Value): string
    decreases v
  {
    match v
    case Null => "None"
    case Bool(b) => if b then "True" else "False"
    case Int(i) => IntText(i)
    case Float(r) => if r == r.Floor as real then IntText(r.Floor) + ".0" else "float"
    case Str(s) => "'" + s + "'"
    case List(items) =>
      "[" + Join(seq(|items|, i requires 0 <= i < |items| => Repr(items[i])), ", ") + "]"
    case Dict(entries) =>
      "{" + Join(seq(|entries|, i requires 0 <= i < |entries| =>
        "'" + entries[i].0 + "': " + Repr(entries[i].1)), ", ") + "}"
  }

  /** Python's type name, `type(v).__name__`. */
  function TypeName(v: Value): string {
    match v
    case Null => "NoneType"
    case Bool(_) => "bool"
    case Int(_) => "int"
    case Float(_) => "float"
    case Str(_) => "str"
    case List(_) => "list"
    case Dict(_) => "dict"
  }
}
