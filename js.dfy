/**
 * The few pieces of JavaScript semantics the dashboard's logic relies on:
 * dynamic payload values and their truthiness, `String(v)`, the `\s` character
 * class, `String.prototype.trim`, `replace(/\s/g, '')` and `Array.prototype.join`.
 */
module Js {
  import opened Wrappers

  /**
   * A JavaScript value as the payloads of this application use them.  A
   * property that is `undefined` is represented by the key being absent
   * from the enclosing `Obj`.
   */
  datatype Value =
    | Str(s: string)
    | Num(n: int)
    | Bool(b: bool)
    | List(items: seq<string>)
    | Obj(fields: map<string, Value>)

  /** JavaScript truthiness: `""`, `0` and `false` are falsy; arrays and objects are truthy. */
  predicate Truthy(v: Value) {
    match v
    case Str(s) => s != ""
    case Num(n) => n != 0
    case Bool(b) => b
    case List(_) => true
    case Obj(_) => true
  }

  /** `v.key`, or None for `undefined` (also when `v` is not an object). */
  function Get(v: Value, key: string): Option<Value> {
    if v.Obj? && key in v.fields then Some(v.fields[key]) else None
  }

  /** `a || b` where `a` may be `undefined`. */
  function Or(a: Option<Value>, b: Value): (r: Value)
    ensures a.Some? && Truthy(a.value) ==> r == a.value
    ensures (a.None? || !Truthy(a.value)) ==> r == b
  {
    if a.Some? && Truthy(a.value) then a.value else b
  }

  /** `{ ...a, ...b }`: the keys of both records, `b` winning on shared keys (see `SpreadOverrides`). */
  function Spread(a: map<string, Value>, b: map<string, Value>): map<string, Value> {
    a + b
  }

  /**
   * The spread has every key of either record, each holding `b`'s value
   * when `b` has the key and `a`'s otherwise.
   */
  lemma SpreadOverrides(a: map<string, Value>, b: map<string, Value>)
    ensures Spread(a, b).Keys == a.Keys + b.Keys
    ensures forall k :: k in b ==> Spread(a, b)[k] == b[k]
    ensures forall k :: k in a && k !in b ==> Spread(a, b)[k] == a[k]
  {
  }

  /** The characters matched by the regular-expression class `\s`, which are also the ones `trim` removes. */
  predicate IsWhitespace(c: char) {
    || c == '\t' || c == '\n' || c == '\U{000B}' || c == '\U{000C}' || c == '\r' || c == ' '
    || c == '\U{00A0}' || c == '\U{1680}' || ('\U{2000}' <= c <= '\U{200A}')
    || c == '\U{2028}' || c == '\U{2029}' || c == '\U{202F}' || c == '\U{205F}'
    || c == '\U{3000}' || c == '\U{FEFF}'
  }

  /** `s` with its leading whitespace removed; what is removed is whitespace and what is kept is a suffix. */
  function TrimStart(s: string): (r: string)
    ensures |r| <= |s| && r == s[|s| - |r|..]
    ensures forall k :: 0 <= k < |s| - |r| ==> IsWhitespace(s[k])
    ensures r == [] || !IsWhitespace(r[0])
  {
    if s != [] && IsWhitespace(s[0]) then TrimStart(s[1..]) else s
  }

  /** `s` with its trailing whitespace removed; what is removed is whitespace and what is kept is a prefix. */
  function TrimEnd(s: string): (r: string)
    ensures |r| <= |s| && r == s[..|r|]
    ensures forall k :: |r| <= k < |s| ==> IsWhitespace(s[k])
    ensures r == [] || !IsWhitespace(r[|r| - 1])
  {
    if s != [] && IsWhitespace(s[|s| - 1]) then TrimEnd(s[..|s| - 1]) else s
  }

  /**
   * `s.trim()`: the longest slice of `s` that neither starts nor ends with
   * whitespace, everything cut off on either side being whitespace.
   */
  function Trim(s: string): (r: string)
    ensures r == [] || (!IsWhitespace(r[0]) && !IsWhitespace(r[|r| - 1]))
    ensures TrimOffset(s) + |r| <= |s| && r == s[TrimOffset(s)..TrimOffset(s) + |r|]
    ensures forall k :: 0 <= k < TrimOffset(s) ==> IsWhitespace(s[k])
    ensures forall k :: TrimOffset(s) + |r| <= k < |s| ==> IsWhitespace(s[k])
  {
    var t := TrimStart(s);
    var r := TrimEnd(t);
    SuffixThenPrefix(s, t, r);
    r
  }

  /**
   * A prefix `r` of a suffix `t` of `s` is a slice of `s`; what `t` has after
   * `r` is what `s` has after that slice.
   */
  lemma SuffixThenPrefix(s: string, t: string, r: string)
    requires |t| <= |s| && t == s[|s| - |t|..]
    requires |r| <= |t| && r == t[..|r|]
    requires forall k :: |r| <= k < |t| ==> IsWhitespace(t[k])
    ensures |s| - |t| + |r| <= |s| && r == s[|s| - |t|..|s| - |t| + |r|]
    ensures forall k :: |s| - |t| + |r| <= k < |s| ==> IsWhitespace(s[k])
  {
    var o := |s| - |t|;
    forall k | o + |r| <= k < |s|
      ensures IsWhitespace(s[k])
    {
      assert s[k] == t[k - o];
    }
  }

  /** How many leading characters `trim` cuts off. */
  function TrimOffset(s: string): nat {
    |s| - |TrimStart(s)|
  }

  /** A string that neither starts nor ends with whitespace is its own trim. */
  lemma {:induction false} TrimKeepsTrimmed(s: string)
    requires s == [] || (!IsWhitespace(s[0]) && !IsWhitespace(s[|s| - 1]))
    ensures Trim(s) == s
  {
  }

  /** Trimming twice is trimming once. */
  lemma TrimIsIdempotent(s: string)
    ensures Trim(Trim(s)) == Trim(s)
  {
    TrimKeepsTrimmed(Trim(s));
  }

  /** `s.replace(/\s/g, '')`: every whitespace character removed, the rest kept in order. */
  function StripWhitespace(s: string): (r: string)
    ensures |r| <= |s|
    ensures forall k :: 0 <= k < |r| ==> !IsWhitespace(r[k])
    ensures (forall k :: 0 <= k < |s| ==> !IsWhitespace(s[k])) ==> r == s
    ensures (forall k :: 0 <= k < |s| ==> IsWhitespace(s[k])) ==> r == []
  {
    if s == [] then []
    else if IsWhitespace(s[0]) then StripWhitespace(s[1..])
    else [s[0]] + StripWhitespace(s[1..])
  }

  /** Removing whitespace commutes with concatenation. */
  lemma {:induction false} StripWhitespaceAppend(a: string, b: string)
    ensures StripWhitespace(a + b) == StripWhitespace(a) + StripWhitespace(b)
  {
    if a != [] {
      assert a + b == [a[0]] + (a[1..] + b);
      assert a == [a[0]] + a[1..];
      StripWhitespaceCons(a[0], a[1..] + b);
      StripWhitespaceCons(a[0], a[1..]);
      StripWhitespaceAppend(a[1..], b);
    } else {
      assert a + b == b;
    }
  }

  /** Removing whitespace from a string with a known first character. */
  lemma StripWhitespaceCons(c: char, s: string)
    ensures StripWhitespace([c] + s) == (if IsWhitespace(c) then [] else [c]) + StripWhitespace(s)
  {
    assert ([c] + s)[1..] == s;
  }

  /** The value of a string of decimal digits, read most significant first. */
  function DigitsValue(s: string): nat
    requires forall k :: 0 <= k < |s| ==> '0' <= s[k] <= '9'
  {
    if s == [] then 0 else 10 * DigitsValue(s[..|s| - 1]) + (s[|s| - 1] as int - '0' as int)
  }

  /** `String(n)` for a non-negative integer: decimal digits without leading zeros that read back as `n`. */
  function NatToString(n: nat): (r: string)
    ensures r != []
    ensures forall k :: 0 <= k < |r| ==> '0' <= r[k] <= '9'
    ensures r[0] == '0' ==> n == 0 && r == "0"
    ensures DigitsValue(r) == n
  {
    var d := ['0' + ((n % 10) as char)];
    if n < 10 then
      d
    else
      var r := NatToString(n / 10) + d;
      assert r[..|r| - 1] == NatToString(n / 10);
      r
  }

  /** `String(n)` for any integer. */
  function IntToString(n: int): string {
    if n < 0 then "-" + NatToString(-n) else NatToString(n)
  }

  /** `xs.join(sep)`. */
  function Join(xs: seq<string>, sep: string): string {
    if xs == [] then ""
    else if |xs| == 1 then xs[0]
    else xs[0] + sep + Join(xs[1..], sep)
  }

  /** `String(v)`, as a template literal `${v}` renders it. */
  function ToJsString(v: Value): string {
    match v
    case Str(s) => s
    case Num(n) => IntToString(n)
    case Bool(b) => if b then "true" else "false"
    case List(xs) => Join(xs, ",")
    case Obj(_) => "[object Object]"
  }

  /** Whether `sub` occurs in `text` as a contiguous piece. */
  predicate Contains(text: string, sub: string) {
    sub <= text || (text != [] && Contains(text[1..], sub))
  }

  /** Whatever is placed between a prefix and a suffix occurs in the result. */
  lemma {:induction false} ContainsMiddle(pre: string, sub: string, post: string)
    ensures Contains(pre + sub + post, sub)
  {
    if pre != [] {
      assert (pre + sub + post)[1..] == pre[1..] + sub + post;
      ContainsMiddle(pre[1..], sub, post);
    } else {
      assert pre + sub + post == sub + post;
    }
  }
}
