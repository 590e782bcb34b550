/**
 * The handful of Python `str` methods the tool relies on, over `seq<char>`.
 * Case mapping and whitespace are ASCII only.
 */
module Strings {
  import opened Wrappers

  /** Index of the first occurrence of `c`, as `str.find` for one character. */
  function IndexOf(s: string, c: char): (r: Option<nat>)
    ensures r.None? <==> c !in s
    ensures r.Some? ==> r.value < |s| && s[r.value] == c && c !in s[..r.value]
  {
    if s == [] then None
    else if s[0] == c then Some(0)
    else
      var r := IndexOf(s[1..], c);
      assert s == [s[0]] + s[1..];
      if r.None? then None
      else
        assert s[..r.value + 1] == [s[0]] + s[1..][..r.value];
        Some(r.value + 1)
  }

  /** `s.split(c)` for a one-character separator: at least one part, none holding `c`. */
  function Split(s: string, c: char): (parts: seq<string>)
    ensures |parts| >= 1
    ensures forall i :: 0 <= i < |parts| ==> c !in parts[i]
    decreases |s|
  {
    match IndexOf(s, c)
    case None => [s]
    case Some(i) => [s[..i]] + Split(s[i + 1..], c)
  }

  /** `sep.join(parts)`. */
  function Join(parts: seq<string>, sep: string): string {
    if parts == [] then ""
    else if |parts| == 1 then parts[0]
    else parts[0] + sep + Join(parts[1..], sep)
  }

  /** Splitting at a separator and joining the parts back gives the original text. */
  lemma {:induction false} JoinSplit(s: string, c: char)
    ensures Join(Split(s, c), [c]) == s
    decreases |s|
  {
    match IndexOf(s, c)
    case None =>
    case Some(i) =>
      var rest := Split(s[i + 1..], c);
      assert Split(s, c) == [s[..i]] + rest;
      JoinSplit(s[i + 1..], c);
      assert Join([s[..i]] + rest, [c]) == s[..i] + [c] + Join(rest, [c]) by {
        assert ([s[..i]] + rest)[1..] == rest;
      }
      assert s == s[..i] + [c] + s[i + 1..];
  }

  /** Text without the separator is a single part. */
  lemma SplitNone(s: string, c: char)
    requires c !in s
    ensures Split(s, c) == [s]
  {
  }

  /** The first occurrence of a character after a prefix without it. */
  lemma IndexOfAfter(a: string, c: char, b: string)
    requires c !in a
    ensures IndexOf(a + [c] + b, c) == Some(|a|)
  {
    var s := a + [c] + b;
    assert s[|a|] == c && s[..|a|] == a;
  }

  /** A separator after a separator-free prefix ends the first part. */
  lemma SplitCons(a: string, c: char, b: string)
    requires c !in a
    ensures Split(a + [c] + b, c) == [a] + Split(b, c)
  {
    var s := a + [c] + b;
    IndexOfAfter(a, c, b);
    assert s[..|a|] == a && s[|a| + 1..] == b;
  }

  /** ASCII lower-casing of one character. */
  function LowerChar(ch: char): char {
    if 'A' <= ch <= 'Z' then (ch as int + 32) as char else ch
  }

  /** ASCII upper-casing of one character. */
  function UpperChar(ch: char): char {
    if 'a' <= ch <= 'z' then (ch as int - 32) as char else ch
  }

  /** `s.lower()`. */
  function Lower(s: string): (r: string)
    ensures |r| == |s| && forall i :: 0 <= i < |s| ==> r[i] == LowerChar(s[i])
  {
    seq(|s|, i requires 0 <= i < |s| => LowerChar(s[i]))
  }

  /** `s.upper()`. */
  function Upper(s: string): (r: string)
    ensures |r| == |s| && forall i :: 0 <= i < |s| ==> r[i] == UpperChar(s[i])
  {
    seq(|s|, i requires 0 <= i < |s| => UpperChar(s[i]))
  }

  /** Upper-casing a lower-cased string gives the upper-cased original. */
  lemma UpperOfLower(s: string)
    ensures Upper(Lower(s)) == Upper(s)
  {
    forall i | 0 <= i < |s| ensures UpperChar(LowerChar(s[i])) == UpperChar(s[i]) {
      if 'A' <= s[i] <= 'Z' {
        assert 'a' <= LowerChar(s[i]) <= 'z';
      }
    }
  }

  /** Upper-casing twice is upper-casing once. */
  lemma UpperTwice(s: string)
    ensures Upper(Upper(s)) == Upper(s)
  {
    forall i | 0 <= i < |s| ensures UpperChar(UpperChar(s[i])) == UpperChar(s[i]) {
      if 'a' <= s[i] <= 'z' {
        assert 'A' <= UpperChar(s[i]) <= 'Z';
      }
    }
  }

  /** `s.startswith(p)`. */
  predicate StartsWith(s: string, p: string) {
    |p| <= |s| && s[..|p|] == p
  }

  /** `s.endswith(p)`. */
  predicate EndsWith(s: string, p: string) {
    |p| <= |s| && s[|s| - |p|..] == p
  }

  /** `p in s` for strings: `p` occurs at some position of `s`. */
  predicate Contains(s: string, p: string) {
    exists i :: 0 <= i <= |s| - |p| && StartsWith(s[i..], p)
  }

  /** `any(p in s for p in ps)`. */
  predicate ContainsAny(s: string, ps: seq<string>) {
    exists p :: p in ps && Contains(s, p)
  }

  /** `s.find(p)`: the position of the first occurrence of `p`, None for -1. */
  function Find(s: string, p: string): (r: Option<nat>)
    ensures r.Some? ==> r.value + |p| <= |s| && StartsWith(s[r.value..], p)
    ensures r.Some? ==> forall i :: 0 <= i < r.value ==> !StartsWith(s[i..], p)
    ensures r.None? <==> !Contains(s, p)
    decreases |s|
  {
    if StartsWith(s, p) then Some(0)
    else if s == [] then None
    else
      var r := Find(s[1..], p);
      if r.Some? then
        assert s[r.value + 1..] == s[1..][r.value..];
        assert forall i :: 1 <= i < r.value + 1 ==> s[i..] == s[1..][i - 1..];
        Some(r.value + 1)
      else
        assert forall i :: 1 <= i <= |s| - |p| ==> s[i..] == s[1..][i - 1..];
        None
  }

  /** `s.find(p, start)`: the first occurrence of `p` at or after `start`. */
  function FindFrom(s: string, p: string, start: nat): (r: Option<nat>)
    requires start <= |s|
    ensures r.Some? ==> start <= r.value && r.value + |p| <= |s| && StartsWith(s[r.value..], p)
    ensures r.Some? ==> forall i :: start <= i < r.value ==> !StartsWith(s[i..], p)
    ensures r.None? ==> forall i :: start <= i <= |s| - |p| ==> !StartsWith(s[i..], p)
  {
    match Find(s[start..], p)
    case None =>
      assert forall i :: start <= i <= |s| - |p| ==> s[i..] == s[start..][i - start..];
      None
    case Some(k) =>
      assert s[start + k..] == s[start..][k..];
      assert forall i :: start <= i < start + k ==> s[i..] == s[start..][i - start..];
      Some(start + k)
  }

  /** A non-empty sequence is its prefix followed by its last element. */
  lemma SplitLast<T>(s: seq<T>)
    requires s != []
    ensures s == s[..|s| - 1] + [s[|s| - 1]]
  {
  }

  /** A text occurring in a part occurs in any text the part is concatenated into. */
  lemma ContainsConcat(a: string, b: string, p: string)
    ensures Contains(a, p) ==> Contains(a + b, p)
    ensures Contains(b, p) ==> Contains(a + b, p)
  {
    if Contains(a, p) {
      var i :| 0 <= i <= |a| - |p| && StartsWith(a[i..], p);
      assert (a + b)[i..][..|p|] == a[i..][..|p|];
    }
    if Contains(b, p) {
      var i :| 0 <= i <= |b| - |p| && StartsWith(b[i..], p);
      assert (a + b)[|a| + i..][..|p|] == b[i..][..|p|];
    }
  }

  /** Occurrence is transitive: a text in a text in `s` is in `s`. */
  lemma ContainsTrans(s: string, q: string, p: string)
    requires Contains(s, q) && Contains(q, p)
    ensures Contains(s, p)
  {
    var i :| 0 <= i <= |s| - |q| && StartsWith(s[i..], q);
    var j :| 0 <= j <= |q| - |p| && StartsWith(q[j..], p);
    assert forall k :: 0 <= k < |q| ==> s[i + k] == q[k] by {
      forall k | 0 <= k < |q| ensures s[i + k] == q[k] {
        assert s[i..][..|q|][k] == q[k];
      }
    }
    assert forall k :: 0 <= k < |p| ==> q[j + k] == p[k] by {
      forall k | 0 <= k < |p| ensures q[j + k] == p[k] {
        assert q[j..][..|p|][k] == p[k];
      }
    }
    assert s[i + j..][..|p|] == p;
  }

  /** Every part of a join occurs in the joined text. */
  lemma {:induction false} JoinContains(parts: seq<string>, sep: string, i: nat)
    requires i < |parts|
    ensures Contains(Join(parts, sep), parts[i])
    decreases |parts|
  {
    if |parts| == 1 {
      assert StartsWith(parts[0][0..], parts[0]);
    } else if i == 0 {
      assert StartsWith(parts[0][0..], parts[0]);
      ContainsConcat(parts[0], sep + Join(parts[1..], sep), parts[0]);
      assert parts[0] + sep + Join(parts[1..], sep) == parts[0] + (sep + Join(parts[1..], sep));
    } else {
      JoinContains(parts[1..], sep, i - 1);
      ContainsConcat(parts[0] + sep, Join(parts[1..], sep), parts[i]);
    }
  }

  /** `s.replace(pat, rep)`: leftmost, non-overlapping occurrences. */
  function ReplaceAll(s: string, pat: string, rep: string): string
    requires pat != ""
    decreases |s|
  {
    if |s| < |pat| then s
    else if s[..|pat|] == pat then rep + ReplaceAll(s[|pat|..], pat, rep)
    else [s[0]] + ReplaceAll(s[1..], pat, rep)
  }

  /** Replacing a pattern that does not occur leaves the string as it is. */
  lemma {:induction false} ReplaceAbsent(s: string, pat: string, rep: string)
    requires pat != "" && !Contains(s, pat)
    ensures ReplaceAll(s, pat, rep) == s
    decreases |s|
  {
    if |s| >= |pat| {
      assert s[..|pat|] != pat by {
        assert !StartsWith(s[0..], pat);
        assert s[0..] == s;
      }
      assert !Contains(s[1..], pat) by {
        forall i | 0 <= i <= |s[1..]| - |pat| ensures !StartsWith(s[1..][i..], pat) {
          assert s[1..][i..] == s[i + 1..];
          assert !StartsWith(s[i + 1..], pat);
        }
      }
      ReplaceAbsent(s[1..], pat, rep);
      assert [s[0]] + s[1..] == s;
    }
  }

  /** Replacing an occurring pattern puts the replacement into the text. */
  lemma {:induction false} ReplaceIntroduces(s: string, pat: string, rep: string)
    requires pat != "" && Contains(s, pat)
    ensures Contains(ReplaceAll(s, pat, rep), rep)
    decreases |s|
  {
    var i :| 0 <= i <= |s| - |pat| && StartsWith(s[i..], pat);
    assert StartsWith(rep[0..], rep);
    if s[..|pat|] == pat {
      ContainsConcat(rep, ReplaceAll(s[|pat|..], pat, rep), rep);
    } else {
      assert s[0..] == s;
      assert i != 0;
      assert StartsWith(s[1..][i - 1..], pat) by {
        assert s[1..][i - 1..] == s[i..];
      }
      ReplaceIntroduces(s[1..], pat, rep);
      ContainsConcat([s[0]], ReplaceAll(s[1..], pat, rep), rep);
    }
  }

  /** `s.rstrip(c)` for one character. */
  function RStrip(s: string, c: char): (r: string)
    ensures r == [] || r[|r| - 1] != c
    ensures StartsWith(s, r)
  {
    if s != [] && s[|s| - 1] == c then RStrip(s[..|s| - 1], c) else s
  }

  /** `s.lstrip(c)` for one character. */
  function LStrip(s: string, c: char): (r: string)
    ensures r == [] || r[0] != c
    ensures EndsWith(s, r)
  {
    if s != [] && s[0] == c then
      var r := LStrip(s[1..], c);
      assert s[1..][|s| - 1 - |r|..] == s[|s| - |r|..];
      r
    else s
  }

  /** The characters `str.strip()` removes (ASCII whitespace). */
  predicate IsSpace(ch: char) {
    ch == ' ' || ch == '\t' || ch == '\n' || ch == '\r' || ch == '\U{B}' || ch == '\U{C}'
  }

  /** `not s.strip()`: the string is empty or whitespace only. */
  predicate IsBlank(s: string) {
    forall i :: 0 <= i < |s| ==> IsSpace(s[i])
  }

  predicate IsDigit(ch: char) {
    '0' <= ch <= '9'
  }

  /** `s.isdigit()`: non-empty and all decimal digits. */
  predicate IsDigits(s: string) {
    s != [] && forall i :: 0 <= i < |s| ==> IsDigit(s[i])
  }

  /** `int(s)` for a string of decimal digits. */
  function ParseNat(s: string): nat
    requires forall i :: 0 <= i < |s| ==> IsDigit(s[i])
  {
    if s == [] then 0
    else
      assert IsDigit(s[|s| - 1]);
      ParseNat(s[..|s| - 1]) * 10 + (s[|s| - 1] as int - '0' as int)
  }

  /** `str(n)` for a natural number. */
  function NatToString(n: nat): (r: string)
    ensures IsDigits(r)
  {
    if n < 10 then [('0' as int + n) as char]
    else NatToString(n / 10) + [('0' as int + n % 10) as char]
  }

  /** Printing a number and reading it back gives the number. */
  lemma {:induction false} ParseNatToString(n: nat)
    ensures ParseNat(NatToString(n)) == n
  {
    if n >= 10 {
      ParseNatToString(n / 10);
      var s := NatToString(n);
      assert s[..|s| - 1] == NatToString(n / 10);
    }
  }

  /** First index at or after `i` that does not hold whitespace (or `|s|`). */
  function SkipSpace(s: string, i: nat): (j: nat)
    requires i <= |s|
    ensures i <= j <= |s|
    ensures forall k :: i <= k < j ==> IsSpace(s[k])
    ensures j < |s| ==> !IsSpace(s[j])
    decreases |s| - i
  {
    if i == |s| || !IsSpace(s[i]) then i else SkipSpace(s, i + 1)
  }

  /** Smallest index `i >= lo` such that `s[i..j]` is whitespace only. */
  function SkipSpaceBack(s: string, lo: nat, j: nat): (i: nat)
    requires lo <= j <= |s|
    ensures lo <= i <= j
    ensures forall k :: i <= k < j ==> IsSpace(s[k])
    ensures i > lo ==> !IsSpace(s[i - 1])
  {
    if j == lo || !IsSpace(s[j - 1]) then j else SkipSpaceBack(s, lo, j - 1)
  }

  /** `s.strip()`: the text without leading and trailing whitespace; empty exactly for blank text. */
  function Strip(s: string): (r: string)
    ensures r == "" <==> IsBlank(s)
    ensures r != "" ==> !IsSpace(r[0]) && !IsSpace(r[|r| - 1])
    ensures |r| <= |s|
  {
    var a := SkipSpace(s, 0);
    if a == |s| then "" else s[a..SkipSpaceBack(s, a + 1, |s|)]
  }

  /** Joining two blank texts gives a blank text. */
  lemma BlankConcat(x: string, y: string)
    requires IsBlank(x) && IsBlank(y)
    ensures IsBlank(x + y)
  {
    forall i | 0 <= i < |x + y| ensures IsSpace((x + y)[i]) {
      if i >= |x| {
        assert (x + y)[i] == y[i - |x|];
      }
    }
  }

  /** Text `m` between whitespace, where `m` neither starts nor ends with whitespace, strips to `m`. */
  lemma StripPadded(p: string, m: string, q: string)
    requires IsBlank(p) && IsBlank(q)
    requires m != "" ==> !IsSpace(m[0]) && !IsSpace(m[|m| - 1])
    ensures Strip(p + m + q) == m
  {
    var s := p + m + q;
    if m == "" {
      assert s == p + q;
      BlankConcat(p, q);
    } else {
      var a := SkipSpace(s, 0);
      assert s[|p|] == m[0];
      assert forall k :: 0 <= k < |p| ==> s[k] == p[k];
      assert a == |p|;
      var j := SkipSpaceBack(s, a + 1, |s|);
      assert s[|p| + |m| - 1] == m[|m| - 1];
      assert forall k :: |p| + |m| <= k < |s| ==> s[k] == q[k - |p| - |m|];
      assert j == |p| + |m|;
      assert s[a..j] == m;
    }
  }

  /** Every text is its stripped form between two runs of whitespace. */
  lemma StripParts(s: string) returns (p: string, q: string)
    ensures IsBlank(p) && IsBlank(q) && s == p + Strip(s) + q
  {
    var a := SkipSpace(s, 0);
    if a == |s| {
      p, q := s, "";
    } else {
      var j := SkipSpaceBack(s, a + 1, |s|);
      p, q := s[..a], s[j..];
      assert s == s[..a] + s[a..j] + s[j..];
    }
  }

  /** `strip()` ignores whitespace added around the text. */
  lemma StripIgnoresPadding(a: string, s: string, b: string)
    requires IsBlank(a) && IsBlank(b)
    ensures Strip(a + s + b) == Strip(s)
  {
    var p, q := StripParts(s);
    var m := Strip(s);
    BlankConcat(a, p);
    BlankConcat(q, b);
    calc {
      a + s + b;
      a + (p + m + q) + b;
      { SeqAssoc(a, p, m, q, b); }
      (a + p) + m + (q + b);
    }
    StripPadded(a + p, m, q + b);
  }

  /** Regrouping five concatenated pieces. */
  lemma SeqAssoc<T>(a: seq<T>, p: seq<T>, m: seq<T>, q: seq<T>, b: seq<T>)
    ensures a + (p + m + q) + b == (a + p) + m + (q + b)
  {
  }

  /** Text that neither starts nor ends with whitespace is its own stripped form. */
  lemma StripTrimmed(t: string)
    requires t != "" ==> !IsSpace(t[0]) && !IsSpace(t[|t| - 1])
    ensures Strip(t) == t
  {
    StripPadded("", t, "");
    assert "" + t + "" == t;
  }
}
