/**
 * The slice of JavaScript semantics that the chat handler and the chat box
 * rely on: parsed JSON values, truthiness, property access, string
 * conversion of values, `String.prototype.includes`, `startsWith` and the
 * whitespace test behind `trim()`.
 */
module Js {

  datatype Option<+T> = None | Some(value: T)

  /** A parsed JSON value. Numbers are restricted to integers. */
  datatype JVal =
    | JNull
    | JBool(b: bool)
    | JNum(n: int)
    | JStr(s: string)
    | JArr(items: seq<JVal>)
    | JObj(fields: map<string, JVal>)

  /** What `JSON.parse` (behind `req.json()` and `response.json()`) yields:
      a value, or the message of the `SyntaxError` it throws. */
  datatype Json = Parsed(value: JVal) | SyntaxError(message: string)

  /** JavaScript truthiness; `None` stands for `undefined`. */
  predicate Truthy(v: Option<JVal>)
  {
    match v
    case None => false
    case Some(JNull) => false
    case Some(JBool(b)) => b
    case Some(JNum(n)) => n != 0
    case Some(JStr(s)) => s != ""
    case Some(JArr(_)) => true
    case Some(JObj(_)) => true
  }

  /** `v?.key`: the own property `key` of an object; `undefined` for every
      other value (none of the keys used here is inherited). */
  function Prop(v: JVal, key: string): (r: Option<JVal>)
    ensures r.Some? <==> v.JObj? && key in v.fields
    ensures r.Some? ==> r.value == v.fields[key]
  {
    if v.JObj? && key in v.fields then Some(v.fields[key]) else None
  }

  /** Decimal rendering of a non-negative integer. */
  function Digits(n: nat): string
  {
    if n < 10 then [('0' as int + n) as char]
    else Digits(n / 10) + [('0' as int + n % 10) as char]
  }

  /** `String(n)` for an integer `n`. */
  function Decimal(n: int): string
  {
    if n < 0 then "-" + Digits(-n) else Digits(n)
  }

  /** `Array.prototype.join(",")` over already converted parts. */
  function JoinWithCommas(parts: seq<string>): string
  {
    if |parts| == 0 then ""
    else if |parts| == 1 then parts[0]
    else parts[0] + "," + JoinWithCommas(parts[1..])
  }

  /** `String(v)` (also what a template literal `${v}` and `new Error(v)` do
      to `v`); an array joins its elements, `null` elements becoming "". */
  function ToText(v: JVal): (r: string)
    ensures v.JStr? ==> r == v.s
    decreases v
  {
    match v
    case JNull => "null"
    case JBool(b) => if b then "true" else "false"
    case JNum(n) => Decimal(n)
    case JStr(s) => s
    case JArr(items) =>
      JoinWithCommas(seq(|items|, k requires 0 <= k < |items| =>
        if items[k] == JNull then "" else ToText(items[k])))
    case JObj(_) => "[object Object]"
  }

  /** `s.startsWith(prefix)`. */
  predicate StartsWith(s: string, prefix: string)
  {
    prefix <= s
  }

  /** `s.includes(sub)`: some suffix of `s` starts with `sub`. */
  predicate Contains(s: string, sub: string)
  {
    exists i :: 0 <= i <= |s| && sub <= s[i..]
  }

  lemma ContainsAfter(q: string, x: string, sub: string)
    requires Contains(x, sub)
    ensures Contains(q + x, sub)
  {
    var i :| 0 <= i <= |x| && sub <= x[i..];
    assert (q + x)[|q| + i..] == x[i..];
  }

  /** A prefix none of whose characters starts `sub` cannot host a match. */
  lemma SkipPrefix(q: string, rest: string, sub: string)
    requires |sub| > 0 && sub[0] !in q
    ensures Contains(q + rest, sub) <==> Contains(rest, sub)
  {
    if Contains(rest, sub) {
      ContainsAfter(q, rest, sub);
    }
    if Contains(q + rest, sub) {
      var i :| 0 <= i <= |q + rest| && sub <= (q + rest)[i..];
      if i >= |q| {
        assert (q + rest)[i..] == rest[i - |q|..];
      }
    }
  }

  /** A match not at the first position is a match in the rest. */
  lemma Uncons(c: char, x: string, sub: string)
    requires !(sub <= [c] + x)
    ensures Contains([c] + x, sub) <==> Contains(x, sub)
  {
    if Contains(x, sub) {
      ContainsAfter([c], x, sub);
    }
    if Contains([c] + x, sub) {
      var i :| 0 <= i <= |[c] + x| && sub <= ([c] + x)[i..];
      assert i > 0;
      assert ([c] + x)[i..] == x[i - 1..];
    }
  }

  lemma ContainsPrefix(s: string, sub: string)
    requires sub <= s
    ensures Contains(s, sub)
  {
    assert s[0..] == s;
  }

  /** A string lacking one of the characters of `sub` does not contain it. */
  lemma MissingChar(s: string, sub: string, k: nat)
    requires k < |sub| && sub[k] !in s
    ensures !Contains(s, sub)
  {
  }

  /** The characters `String.prototype.trim` removes (white space and line
      terminators of ECMAScript). */
  predicate IsJsSpace(c: char)
  {
    var u := c as int;
    u == 0x09 || u == 0x0A || u == 0x0B || u == 0x0C || u == 0x0D || u == 0x20
    || u == 0xA0 || u == 0x1680 || (0x2000 <= u <= 0x200A)
    || u == 0x2028 || u == 0x2029 || u == 0x202F || u == 0x205F
    || u == 0x3000 || u == 0xFEFF
  }

  /** `!s.trim()`: trimming leaves the empty string. */
  predicate IsBlank(s: string)
  {
    forall k :: 0 <= k < |s| ==> IsJsSpace(s[k])
  }
}
