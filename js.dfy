/** The pieces of JavaScript's string and number semantics that the
    handlers and services depend on: whitespace, `trim`, `startsWith`,
    `toLowerCase`, `Number.parseInt(s, 10)`, and the `Number(...)` and
    `String(...)` conversions of a decoded JSON value.

    Strings are sequences of Unicode scalar values; JavaScript's UTF-16
    code units are not modelled. */
module Js {
  import opened Wrappers

  /** A JavaScript number, restricted to the integers and NaN. */
  datatype JsNumber = Num(value: int) | NaN

  /** A JSON value as it reaches the code: a request body field or a
      claim of a decoded token. `JsObject` stands for a plain object; arrays are not
      modelled. */
  datatype JsValue =
    | JsString(s: string)
    | JsNumberValue(n: JsNumber)
    | JsBool(b: bool)
    | JsNull
    | JsUndefined
    | JsObject

  /** The WhiteSpace and LineTerminator code points of ECMAScript, which
      `String.prototype.trim` removes and `parseInt` skips: tab, line
      feed, vertical tab, form feed, carriage return (U+0009 to U+000D),
      space, no-break space, ogham space mark, the spaces U+2000 to
      U+200A, line and paragraph separator, narrow no-break space, medium
      mathematical space, ideographic space and the byte order mark. */
  predicate IsWhitespace(c: char) {
    var k := c as int;
    (0x09 <= k <= 0x0D) || k == 0x20 || k == 0xA0 || k == 0x1680 ||
    (0x2000 <= k <= 0x200A) || k == 0x2028 || k == 0x2029 || k == 0x202F ||
    k == 0x205F || k == 0x3000 || k == 0xFEFF
  }

  predicate IsDigit(c: char) {
    '0' <= c <= '9'
  }

  predicate AllWhitespace(s: string) {
    forall i :: 0 <= i < |s| ==> IsWhitespace(s[i])
  }

  predicate AllDigits(s: string) {
    forall i :: 0 <= i < |s| ==> IsDigit(s[i])
  }

  /** `s.startsWith(prefix)`. */
  predicate StartsWith(s: string, prefix: string) {
    |prefix| <= |s| && s[..|prefix|] == prefix
  }

  lemma DigitNotWhitespace(c: char)
    requires IsDigit(c)
    ensures !IsWhitespace(c)
  {
  }

  /** How many whitespace characters `s` starts with. */
  function LeadingWhitespace(s: string): (k: nat)
    ensures k <= |s|
    ensures forall i :: 0 <= i < k ==> IsWhitespace(s[i])
    ensures k == |s| || !IsWhitespace(s[k])
  {
    if s != [] && IsWhitespace(s[0]) then 1 + LeadingWhitespace(s[1..]) else 0
  }

  /** How many whitespace characters `s` ends with. */
  function TrailingWhitespace(s: string): (k: nat)
    ensures k <= |s|
    ensures forall i :: |s| - k <= i < |s| ==> IsWhitespace(s[i])
    ensures k == |s| || !IsWhitespace(s[|s| - k - 1])
  {
    if s != [] && IsWhitespace(s[|s| - 1]) then 1 + TrailingWhitespace(s[..|s| - 1]) else 0
  }

  /** `s.trimStart()`: the suffix of `s` left after its leading whitespace. */
  function TrimStart(s: string): (r: string)
    ensures |r| <= |s| && r == s[|s| - |r|..]
    ensures AllWhitespace(s[..|s| - |r|])
    ensures r == [] || !IsWhitespace(r[0])
  {
    s[LeadingWhitespace(s)..]
  }

  /** `s.trimEnd()`: the prefix of `s` left after its trailing whitespace. */
  function TrimEnd(s: string): (r: string)
    ensures |r| <= |s| && r == s[..|r|]
    ensures AllWhitespace(s[|r|..])
    ensures r == [] || !IsWhitespace(r[|r| - 1])
  {
    s[..|s| - TrailingWhitespace(s)]
  }

  /** `s.trim()`: `s` without its leading and trailing whitespace. The
      result is a slice of `s` with only whitespace cut from either side,
      and it is empty exactly when `s` is made of whitespace only. */
  function Trim(s: string): (r: string)
    ensures exists i, j :: 0 <= i <= j <= |s| && r == s[i..j] && AllWhitespace(s[..i]) && AllWhitespace(s[j..])
    ensures r == [] || (!IsWhitespace(r[0]) && !IsWhitespace(r[|r| - 1]))
    ensures r == [] <==> AllWhitespace(s)
  {
    var t := TrimStart(s);
    var r := TrimEnd(t);
    assert r == [] ==> t == [] by {
      if r == [] {
        assert t[|r|..] == t;
      }
    }
    assert r != [] ==> r[0] == t[0];
    var i := |s| - |t|;
    var j := i + |r|;
    assert r == s[i..j];
    assert s[j..] == t[|r|..];
    r
  }

  /** `iso.split("T")[0]`: the text before the first 'T', or all of it
      when there is none. */
  function DatePart(iso: string): (r: string)
    ensures |r| <= |iso| && r == iso[..|r|]
    ensures 'T' !in r
    ensures |r| == |iso| || iso[|r|] == 'T'
  {
    if iso == [] || iso[0] == 'T' then [] else [iso[0]] + DatePart(iso[1..])
  }

  /** A string without whitespace at either end is its own trim. */
  lemma TrimOfTrimmed(s: string)
    requires s == [] || (!IsWhitespace(s[0]) && !IsWhitespace(s[|s| - 1]))
    ensures Trim(s) == s
  {
  }

  /** `c.toLowerCase()` for the ASCII letters. */
  function LowerChar(c: char): char {
    if 'A' <= c <= 'Z' then (c as int + ('a' as int - 'A' as int)) as char else c
  }

  /** `s.toLowerCase()`, with only the ASCII letters mapped. */
  function ToLowerCase(s: string): (r: string)
    ensures |r| == |s|
    ensures forall i :: 0 <= i < |s| ==> r[i] == LowerChar(s[i])
  {
    seq(|s|, i requires 0 <= i < |s| => LowerChar(s[i]))
  }

  /** Lower-casing twice is lower-casing once. */
  lemma ToLowerCaseIdempotent(s: string)
    ensures ToLowerCase(ToLowerCase(s)) == ToLowerCase(s)
  {
  }

  /** The longest prefix of `s` made of decimal digits. */
  function DigitPrefix(s: string): (r: string)
    ensures |r| <= |s| && r == s[..|r|] && AllDigits(r)
    ensures |r| == |s| || !IsDigit(s[|r|])
  {
    if s != [] && IsDigit(s[0]) then [s[0]] + DigitPrefix(s[1..]) else []
  }

  function DigitValue(c: char): nat
    requires IsDigit(c)
  {
    c as int - '0' as int
  }

  /** The value of a string of decimal digits, most significant first. */
  function DigitsValue(ds: string): nat
    requires AllDigits(ds)
  {
    if ds == [] then 0 else DigitsValue(ds[..|ds| - 1]) * 10 + DigitValue(ds[|ds| - 1])
  }

  function Signed(negative: bool, n: nat): int {
    if negative then -(n as int) else n
  }

  /** Splits off one leading `-` or `+`: whether the number is negative,
      and what follows the sign. */
  function SplitSign(s: string): (r: (bool, string))
    ensures r.1 == if s != [] && (s[0] == '-' || s[0] == '+') then s[1..] else s
  {
    if s != [] && (s[0] == '-' || s[0] == '+') then (s[0] == '-', s[1..]) else (false, s)
  }

  /** `Number.parseInt(s, 10)`, with NaN as None: leading whitespace is
      skipped, one sign is allowed, and the longest run of digits after
      it is read; anything after that run is ignored. */
  function ParseInt(s: string): (r: Option<int>)
    ensures r.None? <==>
      var body := SplitSign(TrimStart(s)).1;
      body == [] || !IsDigit(body[0])
  {
    var signed := SplitSign(TrimStart(s));
    var ds := DigitPrefix(signed.1);
    if ds == [] then None
    else Some(Signed(signed.0, DigitsValue(ds)))
  }

  lemma {:induction false} TrimStartSkips(ws: string, s: string)
    requires AllWhitespace(ws)
    requires s == [] || !IsWhitespace(s[0])
    ensures TrimStart(ws + s) == s
  {
    if ws != [] {
      assert (ws + s)[1..] == ws[1..] + s;
      TrimStartSkips(ws[1..], s);
    }
  }

  lemma {:induction false} DigitPrefixOf(ds: string, rest: string)
    requires AllDigits(ds)
    requires rest == [] || !IsDigit(rest[0])
    ensures DigitPrefix(ds + rest) == ds
  {
    if ds != [] {
      assert (ds + rest)[1..] == ds[1..] + rest;
      DigitPrefixOf(ds[1..], rest);
    }
  }

  /** `parseInt` reads exactly the digits that follow the whitespace and
      the sign, whatever comes after them. */
  lemma ParseIntReadsDigits(ws: string, sign: string, ds: string, rest: string)
    requires AllWhitespace(ws)
    requires sign == "" || sign == "-" || sign == "+"
    requires ds != [] && AllDigits(ds)
    requires rest == [] || !IsDigit(rest[0])
    ensures ParseInt(ws + sign + ds + rest) == Some(Signed(sign == "-", DigitsValue(ds)))
  {
    var body := ds + rest;
    var tail := sign + body;
    assert ws + sign + ds + rest == ws + tail;
    assert tail[0] == '-' || tail[0] == '+' || IsDigit(tail[0]);
    TrimStartSkips(ws, tail);
    assert SplitSign(tail) == (sign == "-", body) by {
      if sign == "" {
        assert tail == body;
      } else {
        assert tail == [sign[0]] + body;
      }
    }
    DigitPrefixOf(ds, rest);
  }

  /** A string that starts with a letter has no number to read. */
  lemma ParseIntRejectsLetter(s: string)
    requires s != [] && ('a' <= s[0] <= 'z' || 'A' <= s[0] <= 'Z')
    ensures ParseInt(s).None?
  {
    assert !IsWhitespace(s[0]);
    assert TrimStart(s) == s;
  }

  /** What follows the digits does not change the number read. */
  lemma ParseIntIgnoresTrailing(ds: string, rest: string)
    requires ds != [] && AllDigits(ds)
    requires rest == [] || !IsDigit(rest[0])
    ensures ParseInt(ds + rest) == ParseInt(ds) == Some(DigitsValue(ds))
  {
    ParseIntOfDigits(ds, rest);
    ParseIntOfDigits(ds, []);
    assert ds + [] == ds;
  }

  lemma ParseIntOfDigits(ds: string, rest: string)
    requires ds != [] && AllDigits(ds)
    requires rest == [] || !IsDigit(rest[0])
    ensures ParseInt(ds + rest) == Some(DigitsValue(ds))
  {
    var s := ds + rest;
    assert s[0] == ds[0];
    DigitNotWhitespace(s[0]);
    assert LeadingWhitespace(s) == 0;
    assert TrimStart(s) == s;
    assert SplitSign(s) == (false, s);
    DigitPrefixOf(ds, rest);
  }

  function DigitChar(d: nat): (c: char)
    requires d < 10
    ensures IsDigit(c) && DigitValue(c) == d
  {
    ('0' as int + d) as char
  }

  /** The decimal digits of `n`, without leading zeros. */
  function NatToString(n: nat): (r: string)
    ensures r != [] && AllDigits(r)
  {
    if n < 10 then [DigitChar(n)] else NatToString(n / 10) + [DigitChar(n % 10)]
  }

  /** `String(n)` for an integer `n`. */
  function IntToString(n: int): string {
    if n < 0 then "-" + NatToString(-n) else NatToString(n)
  }

  /** Reading the digits of a number back gives the number. */
  lemma {:induction false} DigitsValueOfNatToString(n: nat)
    ensures DigitsValue(NatToString(n)) == n
  {
    if n >= 10 {
      var s := NatToString(n);
      assert s[..|s| - 1] == NatToString(n / 10);
      DigitsValueOfNatToString(n / 10);
    }
  }

  /** `parseInt` inverts `String` on the integers. */
  lemma ParseIntOfIntToString(n: int)
    ensures ParseInt(IntToString(n)) == Some(n)
  {
    var m: nat := if n < 0 then -n else n;
    var ds := NatToString(m);
    var sign := if n < 0 then "-" else "";
    assert IntToString(n) == [] + sign + ds + [];
    ParseIntReadsDigits([], sign, ds, []);
    DigitsValueOfNatToString(m);
    assert Signed(sign == "-", m) == n;
  }

  /** `Number(s)` for a string: an empty or whitespace-only string is 0,
      an optionally signed run of decimal digits (surrounding whitespace
      allowed) is its value, and every other string is NaN. */
  function StringToNumber(s: string): (r: JsNumber)
    ensures AllWhitespace(s) ==> r == Num(0)
  {
    var t := Trim(s);
    if t == [] then Num(0)
    else
      var signed := SplitSign(t);
      if signed.1 != [] && AllDigits(signed.1) then Num(Signed(signed.0, DigitsValue(signed.1)))
      else NaN
  }

  /** `Number(v)`. */
  function ToNumber(v: JsValue): JsNumber {
    match v
    case JsString(s) => StringToNumber(s)
    case JsNumberValue(n) => n
    case JsBool(b) => Num(if b then 1 else 0)
    case JsNull => Num(0)
    case JsUndefined => NaN
    case JsObject => NaN
  }

  /** `String(v)`. */
  function ToJsString(v: JsValue): string {
    match v
    case JsString(s) => s
    case JsNumberValue(n) => if n.NaN? then "NaN" else IntToString(n.value)
    case JsBool(b) => if b then "true" else "false"
    case JsNull => "null"
    case JsUndefined => "undefined"
    case JsObject => "[object Object]"
  }

  /** A number's text has no whitespace to trim. */
  lemma TrimOfNumber(sign: string, ds: string)
    requires sign == "" || sign == "-"
    requires ds != [] && AllDigits(ds)
    ensures Trim(sign + ds) == sign + ds
  {
    var s := sign + ds;
    assert s[|s| - 1] == ds[|ds| - 1];
    DigitNotWhitespace(ds[|ds| - 1]);
    if sign == "" {
      assert s[0] == ds[0];
      DigitNotWhitespace(ds[0]);
    } else {
      assert s[0] == '-';
    }
    TrimOfTrimmed(s);
  }

  lemma SplitSignOfNumber(sign: string, ds: string)
    requires sign == "" || sign == "-"
    requires ds != [] && AllDigits(ds)
    ensures SplitSign(sign + ds) == (sign == "-", ds)
  {
    var s := sign + ds;
    if sign == "-" {
      assert s[0] == '-' && s[1..] == ds;
    } else {
      assert s == ds && IsDigit(s[0]);
    }
  }

  /** `Number` reads an optionally negative run of digits as its value. */
  lemma StringToNumberReadsDigits(sign: string, ds: string)
    requires sign == "" || sign == "-"
    requires ds != [] && AllDigits(ds)
    ensures StringToNumber(sign + ds) == Num(Signed(sign == "-", DigitsValue(ds)))
  {
    TrimOfNumber(sign, ds);
    SplitSignOfNumber(sign, ds);
  }

  /** `Number` inverts `String` on the integers. */
  lemma StringToNumberOfIntToString(n: int)
    ensures StringToNumber(IntToString(n)) == Num(n)
  {
    var m: nat := if n < 0 then -n else n;
    var ds := NatToString(m);
    var sign := if n < 0 then "-" else "";
    assert IntToString(n) == sign + ds;
    StringToNumberReadsDigits(sign, ds);
    DigitsValueOfNatToString(m);
    assert Signed(sign == "-", m) == n;
  }

  /** JavaScript truthiness of a number: 0 and NaN are falsy. */
  predicate NumberTruthy(n: JsNumber) {
    n.Num? && n.value != 0
  }

  /** JavaScript truthiness of a JSON value. */
  predicate Truthy(v: JsValue) {
    match v
    case JsString(s) => s != ""
    case JsNumberValue(n) => NumberTruthy(n)
    case JsBool(b) => b
    case JsNull => false
    case JsUndefined => false
    case JsObject => true
  }

}
