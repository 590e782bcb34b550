/**
 * Dotted-path lookup in nested dicts and environment-variable expansion in strings.
 * The environment is passed in as a map from variable names to values.
 */
module Utils {
  import opened Wrappers
  import opened Json
  import opened Strings

  // ---------------------------------------------------------------------------
  // deep_get

  /** The value reached by following `keys` from `data`; None once a key is missing or a step is not a dict. */
  function Walk(data: Value, keys: seq<string>): Option<Value>
    decreases |keys|
  {
    if keys == [] then Some(data)
    else
      match Get(data, keys[0])
      case None => None
      case Some(v) => Walk(v, keys[1..])
  }

  /** Following two key paths one after the other is following their concatenation. */
  lemma {:induction false} WalkAppend(data: Value, k1: seq<string>, k2: seq<string>)
    ensures Walk(data, k1 + k2) == if Walk(data, k1).Some? then Walk(Walk(data, k1).value, k2) else None
    decreases |k1|
  {
    if k1 == [] {
      assert k1 + k2 == k2;
    } else {
      var k := k1 + k2;
      assert k[0] == k1[0] && k[1..] == k1[1..] + k2;
      match Get(data, k1[0])
      case None =>
      case Some(v) =>
        WalkAppend(v, k1[1..], k2);
        assert Walk(data, k) == Walk(v, k1[1..] + k2);
    }
  }

  /** A value that is not a dict (None included) has no keys to follow. */
  lemma WalkNonDict(data: Value, keys: seq<string>)
    requires !data.Dict? && keys != []
    ensures Walk(data, keys) == None
  {
  }

  /**
   * `deep_get(data, path, default)`: split the path at every '.', then step through the
   * keys, returning the default at the first missing key or non-dict step.
   */
  method DeepGet(data: Value, path: string, default: Value) returns (r: Value)
    ensures r == Walk(data, Split(path, '.')).GetOr(default)
  {
    var keys := Split(path, '.');
    var value := data;
    var i := 0;
    while i < |keys|
      invariant 0 <= i <= |keys|
      invariant Walk(data, keys) == Walk(value, keys[i..])
    {
      var next := Get(value, keys[i]);
      if next.None? {
        return default;
      }
      assert keys[i..][1..] == keys[i + 1..];
      value := next.value;
      i := i + 1;
    }
    return value;
  }

  /** The empty path is the single key '': `deep_get(d, '')` is `d['']` when present. */
  lemma EmptyPathIsEmptyKey(data: Value)
    ensures Walk(data, Split("", '.')) == Get(data, "")
  {
    SplitNone("", '.');
  }

  // ---------------------------------------------------------------------------
  // expand_env_vars

  /** A `${NAME}` or `${NAME:-default}` reference found at the start of a string. */
  datatype BracedRef = BracedRef(name: string, default: Option<string>, len: nat)

  /** Position of the first '}' or ':' in `s`. */
  function NameEnd(s: string): (r: Option<nat>)
    ensures r.Some? ==> r.value < |s| && (s[r.value] == '}' || s[r.value] == ':')
    ensures r.Some? ==> forall i :: 0 <= i < r.value ==> s[i] != '}' && s[i] != ':'
    ensures r.None? ==> forall i :: 0 <= i < |s| ==> s[i] != '}' && s[i] != ':'
  {
    if s == [] then None
    else if s[0] == '}' || s[0] == ':' then Some(0)
    else
      var r := NameEnd(s[1..]);
      if r.Some? then Some(r.value + 1) else None
  }

  /** A '}' or ':' after a prefix free of both ends the name there. */
  lemma {:induction false} NameEndAfter(a: string, c: char, b: string)
    requires forall i :: 0 <= i < |a| ==> a[i] != '}' && a[i] != ':'
    requires c == '}' || c == ':'
    ensures NameEnd(a + [c] + b) == Some(|a|)
  {
    if a != [] {
      assert (a + [c] + b)[1..] == a[1..] + [c] + b;
      NameEndAfter(a[1..], c, b);
    }
  }

  /**
   * The pattern `\$\{([^}:]+)(?::-([^}]*))?\}` anchored at the start of `s`: a name of at
   * least one character up to the first '}' or ':', then either '}' or ':-', a default up
   * to the first '}', and '}'.
   */
  function MatchBraced(s: string): (m: Option<BracedRef>)
    ensures m.Some? ==> 0 < m.value.len <= |s|
  {
    if |s| < 2 || s[0] != '$' || s[1] != '{' then None
    else
      match MatchBracedBody(s[2..])
      case None => None
      case Some(m) => Some(m.(len := m.len + 2))
  }

  /** The part of the braced pattern after `${`; `len` counts from there. */
  function MatchBracedBody(rest: string): (m: Option<BracedRef>)
    ensures m.Some? ==> 0 < m.value.len <= |rest|
  {
    match NameEnd(rest)
    case None => None
    case Some(j) =>
      if j == 0 then None
      else if rest[j] == '}' then Some(BracedRef(rest[..j], None, j + 1))
      else if j + 1 < |rest| && rest[j + 1] == '-' then
        match IndexOf(rest[j + 2..], '}')
        case None => None
        case Some(k) => Some(BracedRef(rest[..j], Some(rest[j + 2..j + 2 + k]), j + k + 3))
      else None
  }

  /** The set value, else the default (possibly empty), else the reference itself. */
  function BracedReplacement(m: BracedRef, matched: string, env: map<string, string>): string {
    if m.name in env then env[m.name]
    else if m.default.Some? then m.default.value
    else matched
  }

  /** The first substitution pass, left to right over non-overlapping matches. */
  function SubstBraced(s: string, env: map<string, string>): string
    decreases |s|
  {
    if s == [] then []
    else
      match MatchBraced(s)
      case Some(m) => BracedReplacement(m, s[..m.len], env) + SubstBraced(s[m.len..], env)
      case None => [s[0]] + SubstBraced(s[1..], env)
  }

  predicate IdentStart(ch: char) {
    'A' <= ch <= 'Z' || 'a' <= ch <= 'z' || ch == '_'
  }

  predicate IdentChar(ch: char) {
    IdentStart(ch) || '0' <= ch <= '9'
  }

  /** Length of the longest prefix of identifier characters. */
  function IdentRun(s: string): (n: nat)
    ensures n <= |s|
    ensures forall i :: 0 <= i < n ==> IdentChar(s[i])
    ensures n < |s| ==> !IdentChar(s[n])
  {
    if s == [] || !IdentChar(s[0]) then 0 else 1 + IdentRun(s[1..])
  }

  /** `\$([A-Za-z_][A-Za-z0-9_]*)` at the start of `s`: the name, longest match. */
  function MatchPlain(s: string): (name: Option<string>)
    ensures name.Some? ==> 1 + |name.value| <= |s| && name.value != ""
  {
    if |s| < 2 || s[0] != '$' || !IdentStart(s[1]) then None
    else Some(s[1..1 + IdentRun(s[1..])])
  }

  /** The second pass: a set `$NAME` becomes its value, anything else stays. */
  function SubstPlain(s: string, env: map<string, string>): string
    decreases |s|
  {
    if s == [] then []
    else
      match MatchPlain(s)
      case Some(name) =>
        (if name in env then env[name] else s[..1 + |name|]) + SubstPlain(s[1 + |name|..], env)
      case None => [s[0]] + SubstPlain(s[1..], env)
  }

  /** `expand_env_vars`: non-strings unchanged; strings through both passes, the second rescanning the first's output. */
  function ExpandEnvVars(v: Value, env: map<string, string>): (r: Value)
    ensures !v.Str? ==> r == v
    ensures v.Str? ==> r == Str(SubstPlain(SubstBraced(v.s, env), env))
  {
    if v.Str? then Str(SubstPlain(SubstBraced(v.s, env), env)) else v
  }

  /** Text without '$' passes through both substitutions unchanged. */
  lemma {:induction false} NoDollarUnchanged(s: string, env: map<string, string>)
    requires '$' !in s
    ensures SubstBraced(s, env) == s && SubstPlain(s, env) == s
    decreases |s|
  {
    if s != [] {
      NoDollarUnchanged(s[1..], env);
      assert s == [s[0]] + s[1..];
    }
  }

  /** With no variable set, the second pass leaves every `$NAME` as it was. */
  lemma {:induction false} PlainUnsetUnchanged(s: string)
    ensures SubstPlain(s, map[]) == s
    decreases |s|
  {
    if s != [] {
      match MatchPlain(s)
      case Some(name) =>
        PlainUnsetUnchanged(s[1 + |name|..]);
        assert s == s[..1 + |name|] + s[1 + |name|..];
      case None =>
        PlainUnsetUnchanged(s[1..]);
        assert s == [s[0]] + s[1..];
    }
  }

  /** A name that the braced pattern accepts. */
  predicate BracedName(name: string) {
    name != "" && '}' !in name && ':' !in name
  }

  lemma MatchBracedName(name: string)
    requires BracedName(name)
    ensures MatchBraced("${" + name + "}") == Some(BracedRef(name, None, |name| + 3))
  {
    var s := "${" + name + "}";
    var rest := name + ['}'] + "";
    assert s[2..] == rest;
    NameEndAfter(name, '}', "");
    assert rest[..|name|] == name;
  }

  lemma MatchBracedBodyDefault(name: string, d: string)
    requires BracedName(name) && '}' !in d
    ensures MatchBracedBody(name + [':'] + (['-'] + d + ['}'])) == Some(BracedRef(name, Some(d), |name| + |d| + 3))
  {
    var rest := name + [':'] + (['-'] + d + ['}']);
    var j := |name|;
    NameEndAfter(name, ':', ['-'] + d + ['}']);
    assert rest[..j] == name;
    assert rest[j + 1] == '-';
    assert rest[j + 2..] == d + ['}'] + "";
    IndexOfAfter(d, '}', "");
    assert rest[j + 2..j + 2 + |d|] == d;
  }

  lemma MatchBracedDefault(name: string, d: string)
    requires BracedName(name) && '}' !in d
    ensures MatchBraced("${" + name + ":-" + d + "}") == Some(BracedRef(name, Some(d), |name| + |d| + 5))
  {
    var s := "${" + name + ":-" + d + "}";
    assert s[2..] == name + [':'] + (['-'] + d + ['}']);
    MatchBracedBodyDefault(name, d);
  }

  /** The whole of `s` is one braced reference. */
  lemma SubstBracedWhole(s: string, m: BracedRef, env: map<string, string>)
    requires MatchBraced(s) == Some(m) && m.len == |s|
    ensures SubstBraced(s, env) == BracedReplacement(m, s, env)
  {
    assert s[..m.len] == s && s[m.len..] == [];
  }

  /** `${NAME}` with NAME set is replaced by its value, which the `$NAME` pass then rescans. */
  lemma BracedSet(name: string, env: map<string, string>)
    requires BracedName(name) && name in env
    ensures ExpandEnvVars(Str("${" + name + "}"), env) == Str(SubstPlain(env[name], env))
  {
    MatchBracedName(name);
    SubstBracedWhole("${" + name + "}", BracedRef(name, None, |name| + 3), env);
  }

  /** `${NAME:-d}` with NAME unset becomes d (possibly empty), rescanned by the `$NAME` pass. */
  lemma BracedDefault(name: string, d: string, env: map<string, string>)
    requires BracedName(name) && '}' !in d && name !in env
    ensures ExpandEnvVars(Str("${" + name + ":-" + d + "}"), env) == Str(SubstPlain(d, env))
  {
    MatchBracedDefault(name, d);
    SubstBracedWhole("${" + name + ":-" + d + "}", BracedRef(name, Some(d), |name| + |d| + 5), env);
  }

  /** `${NAME}` with NAME unset and no default stays literally in the output. */
  lemma BracedUnsetStays(name: string, env: map<string, string>)
    requires BracedName(name) && name !in env && '$' !in name
    ensures ExpandEnvVars(Str("${" + name + "}"), env) == Str("${" + name + "}")
  {
    var s := "${" + name + "}";
    MatchBracedName(name);
    SubstBracedWhole(s, BracedRef(name, None, |name| + 3), env);
    assert MatchPlain(s) == None;
    assert '$' !in s[1..];
    NoDollarUnchanged(s[1..], env);
    assert s == [s[0]] + s[1..];
  }

  /** `$NAME` is replaced by the value of the longest identifier after '$', when that variable is set. */
  lemma PlainSet(name: string, env: map<string, string>)
    requires name != "" && IdentStart(name[0]) && (forall i :: 0 <= i < |name| ==> IdentChar(name[i]))
    requires name in env
    ensures SubstPlain("$" + name, env) == env[name]
  {
    var s := "$" + name;
    assert s[1..] == name;
    assert IdentRun(name) == |name|;
    assert s[1..1 + |name|] == name;
    assert MatchPlain(s) == Some(name);
    assert s[1 + |name|..] == [];
  }

  /** `$100` is not a reference: a digit cannot start a name. */
  lemma DollarDigitsUnchanged(env: map<string, string>)
    ensures ExpandEnvVars(Str("$100"), env) == Str("$100")
  {
    NoDollarUnchanged("100", env);
    assert "$100"[1..] == "100";
  }

  /** Because the passes run in sequence, `${A}` whose value is `$B` ends up as the value of B. */
  lemma Rescan(a: string, b: string, env: map<string, string>)
    requires BracedName(a) && a in env && env[a] == "$" + b
    requires b != "" && IdentStart(b[0]) && (forall i :: 0 <= i < |b| ==> IdentChar(b[i])) && b in env
    ensures ExpandEnvVars(Str("${" + a + "}"), env) == Str(env[b])
  {
    BracedSet(a, env);
    PlainSet(b, env);
  }
}
