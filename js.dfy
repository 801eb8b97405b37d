/** The small part of the JavaScript runtime that the link pipeline relies on:
    values, `undefined`, exceptions, template interpolation, `parseInt`,
    `Array.prototype.join` and `String.prototype.split` with a one-character
    separator, and the characters that `.` in a regular expression refuses. */
module Js {

  datatype Option<+T> = None | Some(value: T)

  /** A thrown exception, by the kind of failure that raised it. */
  datatype Error =
    | TypeError            // a property read on `null` or `undefined`
    | SyntaxError          // `JSON.parse` of text that is not JSON
    | StoreFailure         // any S3 failure other than a missing key
    | ModelFailure         // the Bedrock invocation failed
    | ScrapeFailure        // open-graph-scraper rejected

  datatype Result<+T> = Ok(value: T) | Err(error: Error)

  type byte = bv8

  /** JavaScript values as far as the storage layer distinguishes them.
      Numbers are kept integral; `JsBytes` is a `Uint8Array`. */
  datatype JsValue =
    | JsUndefined
    | JsNull
    | JsBool(b: bool)
    | JsNumber(n: int)
    | JsString(s: string)
    | JsArray(elements: seq<JsValue>)
    | JsObject(fields: map<string, JsValue>)
    | JsBytes(bytes: seq<byte>)

  /** The `typeof` operator. */
  function TypeOf(v: JsValue): string
  {
    match v
    case JsUndefined => "undefined"
    case JsBool(_) => "boolean"
    case JsNumber(_) => "number"
    case JsString(_) => "string"
    case _ => "object"
  }

  /** `Array.isArray`: only array literals, not typed arrays. */
  predicate IsArray(v: JsValue)
  {
    v.JsArray?
  }

  /** A string or `undefined` rendered by `${...}` in a template literal. */
  function Interpolate(o: Option<string>): string
  {
    match o
    case Some(v) => v
    case None => "undefined"
  }

  /** Truthiness of a string-or-`undefined`: `undefined` and `""` are falsy. */
  predicate IsTruthy(o: Option<string>)
  {
    o.Some? && o.value != ""
  }

  /** `s[i..i + |w|] == w`: the word `w` occurs in `s` at offset `i`. */
  predicate OccursAt(s: string, i: nat, w: string)
  {
    i + |w| <= |s| && s[i..i + |w|] == w
  }

  lemma OccursAfter(a: string, b: string, i: nat, w: string)
    requires OccursAt(b, i, w)
    ensures OccursAt(a + b, |a| + i, w)
  {
    assert (a + b)[|a| + i..|a| + i + |w|] == b[i..i + |w|];
  }

  lemma OccursInConcat(a: string, w: string, b: string)
    ensures OccursAt(a + w + b, |a|, w)
  {
    assert (a + w + b)[|a|..|a| + |w|] == w;
  }

  /** LineTerminator of ECMA-262 section 12.3: what `.` does not match. */
  predicate IsLineTerminator(c: char)
  {
    c == '\n' || c == '\r' || c == '\U{2028}' || c == '\U{2029}'
  }

  /** StrWhiteSpaceChar of ECMA-262 section 7.1.4.1: WhiteSpace (tab, vertical tab,
      form feed, space, no-break space, byte order mark and the Zs category)
      and LineTerminator. */
  predicate IsStrWhiteSpace(c: char)
  {
    c == '\t' || c == '\U{000B}' || c == '\U{000C}' || c == ' ' || c == '\U{00A0}' || c == '\U{FEFF}'
    || c == '\U{1680}' || ('\U{2000}' <= c <= '\U{200A}') || c == '\U{202F}' || c == '\U{205F}'
    || c == '\U{3000}' || IsLineTerminator(c)
  }

  // ---------------------------------------------------------------------------
  // parseInt (ECMA-262 section 19.2.5) with the radix argument left out

  /** The result of `parseInt`: `NaN` or an integer. Magnitudes beyond the
      double range are kept exact, which does not change any comparison
      with a small integer. */
  datatype ParsedNumber = NaN | Integer(value: int)

  /** The value of `c` as a digit in `radix` (2..36), when it is one. */
  function DigitOf(c: char, radix: nat): Option<nat>
  {
    var d :=
      if '0' <= c <= '9' then (c as int) - ('0' as int)
      else if 'a' <= c <= 'z' then (c as int) - ('a' as int) + 10
      else if 'A' <= c <= 'Z' then (c as int) - ('A' as int) + 10
      else 36;
    if d < radix then Some(d) else None
  }

  predicate AllDigits(s: string, radix: nat)
  {
    forall i :: 0 <= i < |s| ==> DigitOf(s[i], radix).Some?
  }

  /** Leading StrWhiteSpaceChar removed (step 2 of parseInt). */
  function TrimStart(s: string): (t: string)
    ensures |t| <= |s| && t == s[|s| - |t|..]
    ensures |t| > 0 ==> !IsStrWhiteSpace(t[0])
    ensures forall i :: 0 <= i < |s| - |t| ==> IsStrWhiteSpace(s[i])
    decreases |s|
  {
    if |s| > 0 && IsStrWhiteSpace(s[0]) then TrimStart(s[1..]) else s
  }

  /** The longest prefix of `s` made of digits of `radix` (step 11). */
  function DigitPrefix(s: string, radix: nat): (z: string)
    ensures |z| <= |s| && z == s[..|z|]
    ensures AllDigits(z, radix)
    ensures |z| < |s| ==> DigitOf(s[|z|], radix).None?
    decreases |s|
  {
    if |s| > 0 && DigitOf(s[0], radix).Some? then [s[0]] + DigitPrefix(s[1..], radix) else []
  }

  /** The mathematical value of a digit string, most significant digit first. */
  function DigitsValue(z: string, radix: nat): nat
    requires AllDigits(z, radix)
    decreases |z|
  {
    if |z| == 0 then 0
    else DigitsValue(z[..|z| - 1], radix) * radix + DigitOf(z[|z| - 1], radix).value
  }

  /** Steps 6-13 after the sign: a `0x`/`0X` prefix selects radix 16
      (otherwise radix 10), then the longest run of digits; none gives `NaN`. */
  function ParseUnsigned(u: string): (r: ParsedNumber)
    ensures r.Integer? ==> r.value >= 0
  {
    var hex := |u| >= 2 && u[0] == '0' && (u[1] == 'x' || u[1] == 'X');
    var radix := if hex then 16 else 10;
    var z := DigitPrefix(if hex then u[2..] else u, radix);
    if z == [] then NaN else Integer(DigitsValue(z, radix))
  }

  /** `parseInt(s)`: skip leading white space, take one optional sign, then
      read the magnitude. */
  function ParseInt(s: string): (r: ParsedNumber)
    ensures TrimStart(s) == "" ==> r == NaN
  {
    var t := TrimStart(s);
    if |t| > 0 && (t[0] == '-' || t[0] == '+') then
      match ParseUnsigned(t[1..])
      case NaN => NaN
      case Integer(m) => Integer(if t[0] == '-' then -m else m)
    else ParseUnsigned(t)
  }

  /** Reference rendering of a natural number in decimal (`String(n)`). */
  function DecimalString(n: nat): string
    decreases n
  {
    var last := [((n % 10) + ('0' as int)) as char];
    if n < 10 then last else DecimalString(n / 10) + last
  }

  lemma {:induction false} DecimalStringShape(n: nat)
    ensures |DecimalString(n)| >= 1
    ensures AllDigits(DecimalString(n), 10)
    ensures forall i :: 0 <= i < |DecimalString(n)| ==> '0' <= DecimalString(n)[i] <= '9'
    ensures DecimalString(n)[0] == '0' ==> n == 0
    ensures |DecimalString(n)| >= 2 ==> n >= 10
    ensures DigitsValue(DecimalString(n), 10) == n
    decreases n
  {
    var s := DecimalString(n);
    if n >= 10 {
      DecimalStringShape(n / 10);
      var p := DecimalString(n / 10);
      assert s == p + [s[|s| - 1]];
      assert s[..|s| - 1] == p;
      assert s[0] == p[0];
    }
  }

  lemma {:induction false} DigitPrefixOfDigits(s: string, radix: nat)
    requires AllDigits(s, radix)
    ensures DigitPrefix(s, radix) == s
    decreases |s|
  {
    if |s| > 0 {
      DigitPrefixOfDigits(s[1..], radix);
    }
  }

  /** `parseInt` reads back what `String(n)` writes. */
  lemma ParseIntOfDecimal(n: nat)
    ensures ParseInt(DecimalString(n)) == Integer(n)
  {
    var s := DecimalString(n);
    DecimalStringShape(n);
    DigitIsNotBlank(s[0]);
    ParseIntUnsigned(s);
    ParseUnsignedOfDecimal(n);
  }

  /** Without leading white space or a sign `parseInt` reads the magnitude directly. */
  lemma ParseIntUnsigned(s: string)
    requires |s| > 0 && !IsStrWhiteSpace(s[0]) && s[0] != '-' && s[0] != '+'
    ensures ParseInt(s) == ParseUnsigned(s)
  {
    assert TrimStart(s) == s;
  }

  /** A decimal digit is neither white space nor a sign. */
  lemma DigitIsNotBlank(c: char)
    requires '0' <= c <= '9'
    ensures !IsStrWhiteSpace(c) && c != '-' && c != '+'
  {
  }

  lemma ParseUnsignedOfDecimal(n: nat)
    ensures ParseUnsigned(DecimalString(n)) == Integer(n)
  {
    var s := DecimalString(n);
    DecimalStringShape(n);
    DigitPrefixOfDigits(s, 10);
  }

  /** A leading minus sign negates. */
  lemma ParseIntOfNegative(n: nat)
    ensures ParseInt("-" + DecimalString(n)) == Integer(-(n as int))
  {
    var s := DecimalString(n);
    var t := "-" + s;
    assert !IsStrWhiteSpace(t[0]);
    assert TrimStart(t) == t;
    assert t[1..] == s;
    ParseUnsignedOfDecimal(n);
  }

  /** A string whose first non-blank character is no sign and no digit is `NaN`. */
  lemma ParseIntNoDigits(s: string)
    requires var t := TrimStart(s); |t| > 0 && t[0] != '-' && t[0] != '+' && DigitOf(t[0], 10).None?
    ensures ParseInt(s) == NaN
  {
    var t := TrimStart(s);
    assert DigitOf('0', 10).Some?;
  }

  // ---------------------------------------------------------------------------
  // Array.prototype.join and String.prototype.split

  /** `parts.join(sep)`. */
  function Join(parts: seq<string>, sep: string): string
    decreases |parts|
  {
    if |parts| == 0 then ""
    else if |parts| == 1 then parts[0]
    else parts[0] + sep + Join(parts[1..], sep)
  }

  /** `s.split(sep)` for a one-character separator: always at least one part. */
  function Split(s: string, sep: char): (parts: seq<string>)
    ensures |parts| >= 1
    decreases |s|
  {
    if |s| == 0 then [""]
    else if s[0] == sep then [""] + Split(s[1..], sep)
    else
      var rest := Split(s[1..], sep);
      [[s[0]] + rest[0]] + rest[1..]
  }

  lemma {:induction false} SplitWithoutSeparator(a: string, sep: char)
    requires sep !in a
    ensures Split(a, sep) == [a]
    decreases |a|
  {
    if |a| > 0 {
      SplitWithoutSeparator(a[1..], sep);
      assert [a[0]] + a[1..] == a;
    }
  }

  lemma {:induction false} SplitAtFirstSeparator(a: string, sep: char, b: string)
    requires sep !in a
    ensures Split(a + [sep] + b, sep) == [a] + Split(b, sep)
    decreases |a|
  {
    var s := a + [sep] + b;
    if |a| == 0 {
      assert s[0] == sep && s[1..] == b;
    } else {
      assert s[0] == a[0] && s[1..] == a[1..] + [sep] + b;
      SplitAtFirstSeparator(a[1..], sep, b);
      assert [a[0]] + a[1..] == a;
    }
  }

  /** Splitting a join on a separator that no part contains gives the parts back. */
  lemma {:induction false} SplitJoin(parts: seq<string>, sep: char)
    requires |parts| >= 1
    requires forall i :: 0 <= i < |parts| ==> sep !in parts[i]
    ensures Split(Join(parts, [sep]), sep) == parts
    decreases |parts|
  {
    if |parts| == 1 {
      SplitWithoutSeparator(parts[0], sep);
    } else {
      SplitJoin(parts[1..], sep);
      SplitAtFirstSeparator(parts[0], sep, Join(parts[1..], [sep]));
      assert [parts[0]] + parts[1..] == parts;
    }
  }
}
