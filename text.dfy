/** String and number helpers with the JavaScript meaning the components rely on:
    truthiness of optional strings, `toLowerCase`, `includes`, `startsWith`, `trim`,
    template-literal rendering of integers and `parseInt`. */
module Text {
  import opened Wrappers

  /** A JavaScript value `s` is truthy when it is a present, non-empty string. */
  predicate Truthy(s: Option<string>) {
    s.Some? && s.value != ""
  }

  /** `a || fallback` for an optional string and a string fallback. */
  function Or(a: Option<string>, fallback: string): (r: string)
    ensures Truthy(a) ==> r == a.value
    ensures !Truthy(a) ==> r == fallback
  {
    if Truthy(a) then a.value else fallback
  }

  /** A string or `undefined` as `String` and a template literal render it. */
  function JsString(v: Option<string>): (r: string)
    ensures v.Some? ==> r == v.value
    ensures v.None? ==> r == "undefined"
  {
    if v.Some? then v.value else "undefined"
  }

  /** `a || b` for two optional strings. */
  function OrElse(a: Option<string>, b: Option<string>): (r: Option<string>)
    ensures Truthy(r) <==> Truthy(a) || Truthy(b)
    ensures Truthy(a) ==> r == a
  {
    if Truthy(a) then a else b
  }

  /** `s || undefined`: the empty string becomes absent. */
  function EmptyToAbsent(s: string): (r: Option<string>)
    ensures r.None? <==> s == ""
    ensures r.Some? ==> r.value == s
  {
    if s == "" then None else Some(s)
  }

  // ---------------------------------------------------------------- case

  /** Lower-casing of one character: ASCII letters only. */
  function LowerChar(c: char): char {
    if 'A' <= c <= 'Z' then (c as int + 32) as char else c
  }

  function Lower(s: string): (r: string)
    ensures |r| == |s|
    ensures forall i :: 0 <= i < |s| ==> r[i] == LowerChar(s[i])
  {
    if s == [] then [] else [LowerChar(s[0])] + Lower(s[1..])
  }

  // ---------------------------------------------------------------- includes / startsWith

  predicate StartsWith(s: string, prefix: string) {
    |prefix| <= |s| && s[..|prefix|] == prefix
  }

  /** `s.includes(sub)`, computed by scanning every start position. */
  function Contains(s: string, sub: string): bool
    decreases |s|
  {
    StartsWith(s, sub) || (s != [] && Contains(s[1..], sub))
  }

  /** The specification of `includes`: `sub` occurs at some position of `s`. */
  ghost predicate OccursAt(s: string, sub: string, i: int) {
    0 <= i && i + |sub| <= |s| && s[i..i + |sub|] == sub
  }

  /** An occurrence found by the scan is a real occurrence. */
  lemma {:induction false} ContainsSound(s: string, sub: string) returns (i: nat)
    requires Contains(s, sub)
    ensures OccursAt(s, sub, i)
    decreases |s|
  {
    if StartsWith(s, sub) {
      i := 0;
    } else {
      var j := ContainsSound(s[1..], sub);
      assert s[1..][j..j + |sub|] == s[j + 1..j + 1 + |sub|];
      i := j + 1;
    }
  }

  /** The scan finds every occurrence. */
  lemma {:induction false} ContainsComplete(s: string, sub: string, i: int)
    requires OccursAt(s, sub, i)
    ensures Contains(s, sub)
    decreases |s|
  {
    if i > 0 {
      assert s[1..][i - 1..i - 1 + |sub|] == s[i..i + |sub|];
      ContainsComplete(s[1..], sub, i - 1);
    } else {
      assert StartsWith(s, sub);
    }
  }

  lemma ContainsIff(s: string, sub: string)
    ensures Contains(s, sub) <==> exists i :: OccursAt(s, sub, i)
  {
    if Contains(s, sub) {
      var i := ContainsSound(s, sub);
    }
    forall i | OccursAt(s, sub, i) ensures Contains(s, sub) {
      ContainsComplete(s, sub, i);
    }
  }

  /** A text in which the first character of `sub` never appears early enough to start it
      does not contain `sub`. */
  lemma NotContainsWithoutFirstChar(s: string, sub: string)
    requires sub != [] && forall k :: 0 <= k <= |s| - |sub| ==> s[k] != sub[0]
    ensures !Contains(s, sub)
  {
    if Contains(s, sub) {
      var i := ContainsSound(s, sub);
    }
  }

  /** Every string includes the empty string: an empty search query matches everything. */
  lemma ContainsEmpty(s: string)
    ensures Contains(s, "")
  {
    assert StartsWith(s, "");
  }

  /** `s.indexOf(c)`: the first position holding `c`. */
  function IndexOf(s: string, c: char): (r: Option<nat>)
    ensures r.Some? ==> r.value < |s| && s[r.value] == c && forall j :: 0 <= j < r.value ==> s[j] != c
    ensures r.None? ==> forall j :: 0 <= j < |s| ==> s[j] != c
  {
    if s == [] then None
    else if s[0] == c then Some(0)
    else match IndexOf(s[1..], c)
      case None => None
      case Some(i) => Some(i + 1)
  }

  // ---------------------------------------------------------------- trim

  /** ECMAScript white space and line terminators: what `trim`, `parseInt` and the `\s` class skip. */
  predicate IsSpace(c: char) {
    c == '\t' || c == '\n' || c == '\U{000B}' || c == '\U{000C}' || c == '\r' || c == ' '
    || c == '\U{00A0}' || c == '\U{1680}' || ('\U{2000}' <= c <= '\U{200A}')
    || c == '\U{2028}' || c == '\U{2029}' || c == '\U{202F}' || c == '\U{205F}' || c == '\U{3000}' || c == '\U{FEFF}'
  }

  function TrimStart(s: string): (r: string)
    ensures |r| <= |s| && r == s[|s| - |r|..]
    ensures r != [] ==> !IsSpace(r[0])
    ensures forall i :: 0 <= i < |s| - |r| ==> IsSpace(s[i])
  {
    if s != [] && IsSpace(s[0]) then
      var r := TrimStart(s[1..]);
      assert forall i :: 1 <= i < |s| ==> s[i] == s[1..][i - 1];
      r
    else s
  }

  function TrimEnd(s: string): (r: string)
    ensures |r| <= |s| && r == s[..|r|]
    ensures r != [] ==> !IsSpace(r[|r| - 1])
    ensures forall i :: |r| <= i < |s| ==> IsSpace(s[i])
  {
    if s != [] && IsSpace(s[|s| - 1]) then
      var r := TrimEnd(s[..|s| - 1]);
      assert forall i :: 0 <= i < |s| - 1 ==> s[i] == s[..|s| - 1][i];
      r
    else s
  }

  /** `s.trim()`: the longest infix of `s` that neither starts nor ends with white space. */
  function Trim(s: string): (r: string)
  {
    TrimEnd(TrimStart(s))
  }

  /** `trim` keeps a contiguous piece of its input whose ends are not white space. */
  lemma TrimSpec(s: string)
    ensures exists i :: OccursAt(s, Trim(s), i)
    ensures Trim(s) != [] ==> !IsSpace(Trim(s)[0]) && !IsSpace(Trim(s)[|Trim(s)| - 1])
  {
    var t := TrimStart(s);
    var r := TrimEnd(t);
    var k := |s| - |t|;
    assert t == s[k..];
    assert r == t[..|r|];
    assert r == s[k..k + |r|];
    assert Trim(s) == r;
    assert OccursAt(s, Trim(s), k);
  }

  /** `trim` yields the empty string exactly when its input is all white space. */
  lemma TrimBlank(s: string)
    ensures (forall i :: 0 <= i < |s| ==> IsSpace(s[i])) <==> Trim(s) == []
  {
    var t := TrimStart(s);
    var k := |s| - |t|;
    assert t == s[k..];
    if Trim(s) == [] {
      assert t == [];
    } else if t != [] {
      assert !IsSpace(s[k]);
    }
  }

  /** A string that neither starts nor ends with white space is left unchanged by `trim`. */
  lemma TrimUnpadded(s: string)
    requires s != [] ==> !IsSpace(s[0]) && !IsSpace(s[|s| - 1])
    ensures Trim(s) == s
  {
  }

  /** One trailing space is trimmed away from an unpadded word. */
  lemma TrimTrailingSpace(s: string)
    requires s != [] && !IsSpace(s[0]) && !IsSpace(s[|s| - 1])
    ensures Trim(s + " ") == s
  {
    var t := s + " ";
    assert t[0] == s[0];
    assert TrimStart(t) == t;
    assert t[..|t| - 1] == s;
    assert TrimEnd(t) == TrimEnd(s);
  }

  /** One leading space is trimmed away from an unpadded word. */
  lemma TrimLeadingSpace(s: string)
    requires s != [] && !IsSpace(s[0]) && !IsSpace(s[|s| - 1])
    ensures Trim(" " + s) == s
  {
    var t := " " + s;
    assert t[1..] == s;
    assert TrimStart(t) == TrimStart(s);
  }

  // ---------------------------------------------------------------- length

  /** `s.length`: UTF-16 code units, two for each character beyond U+FFFF. */
  function Utf16Length(s: string): (n: nat)
    ensures |s| <= n <= 2 * |s|
    decreases |s|
  {
    if s == [] then 0 else Utf16Length(s[..|s| - 1]) + (if s[|s| - 1] as int > 0xFFFF then 2 else 1)
  }

  /** Text within the Basic Multilingual Plane has one code unit per character. */
  lemma {:induction false} Utf16LengthOfBmp(s: string)
    requires forall i :: 0 <= i < |s| ==> s[i] as int <= 0xFFFF
    ensures Utf16Length(s) == |s|
    decreases |s|
  {
    if s != [] {
      Utf16LengthOfBmp(s[..|s| - 1]);
    }
  }

  // ---------------------------------------------------------------- numbers

  predicate IsDigit(c: char) {
    '0' <= c <= '9'
  }

  function DigitChar(d: nat): (c: char)
    requires d < 10
    ensures IsDigit(c)
  {
    (d + '0' as int) as char
  }

  function DigitValue(c: char): (d: nat)
    requires IsDigit(c)
    ensures d < 10
  {
    c as int - '0' as int
  }

  /** Decimal rendering of a natural number, as a template literal shows it. */
  function NatToString(n: nat): (r: string)
    ensures r != []
    ensures forall i :: 0 <= i < |r| ==> IsDigit(r[i])
  {
    if n < 10 then [DigitChar(n)] else NatToString(n / 10) + [DigitChar(n % 10)]
  }

  /** Decimal rendering of an integer, with a leading '-' when negative. */
  function IntToString(n: int): (r: string)
    ensures r != []
  {
    if n < 0 then "-" + NatToString(-n) else NatToString(n)
  }

  /** The value of a string of decimal digits. */
  function DigitsValue(s: string): nat
    requires forall i :: 0 <= i < |s| ==> IsDigit(s[i])
  {
    if s == [] then 0 else DigitsValue(s[..|s| - 1]) * 10 + DigitValue(s[|s| - 1])
  }

  /** The longest prefix of `s` made of decimal digits. */
  function LeadingDigits(s: string): (r: string)
    ensures |r| <= |s| && r == s[..|r|]
    ensures forall i :: 0 <= i < |r| ==> IsDigit(r[i])
    ensures |r| < |s| ==> !IsDigit(s[|r|])
  {
    if s != [] && IsDigit(s[0]) then [s[0]] + LeadingDigits(s[1..]) else []
  }

  /** A JavaScript number as these components produce it: an integer or NaN. */
  datatype JsNumber = Int(value: int) | NaN

  /** `parseInt(s)` in radix 10: leading white space is skipped, then an optional sign,
      then the longest run of digits; no digits gives NaN. */
  function ParseInt(s: string): JsNumber {
    ParseSigned(TrimStart(s))
  }

  function ParseSigned(t: string): JsNumber {
    if t != [] && t[0] == '-' then Negate(ParseDigits(t[1..]))
    else if t != [] && t[0] == '+' then ParseDigits(t[1..])
    else ParseDigits(t)
  }

  function ParseDigits(t: string): (r: JsNumber)
    ensures r.NaN? <==> t == [] || !IsDigit(t[0])
  {
    var d := LeadingDigits(t);
    if d == [] then NaN else Int(DigitsValue(d))
  }

  function Negate(x: JsNumber): JsNumber {
    match x
    case NaN => NaN
    case Int(v) => Int(-v)
  }

  lemma {:induction false} NatToStringValue(n: nat)
    ensures DigitsValue(NatToString(n)) == n
  {
    if n >= 10 {
      NatToStringValue(n / 10);
      var s := NatToString(n);
      assert s[..|s| - 1] == NatToString(n / 10);
    }
  }

  lemma {:induction false} LeadingDigitsAll(s: string)
    requires forall i :: 0 <= i < |s| ==> IsDigit(s[i])
    ensures LeadingDigits(s) == s
  {
    if s != [] {
      LeadingDigitsAll(s[1..]);
    }
  }

  lemma ParseDigitsOfNat(m: nat)
    ensures ParseDigits(NatToString(m)) == Int(m)
  {
    NatToStringValue(m);
    LeadingDigitsAll(NatToString(m));
  }

  lemma ParseNatString(m: nat)
    ensures ParseInt(NatToString(m)) == Int(m)
  {
    var s := NatToString(m);
    assert IsDigit(s[0]);
    assert TrimStart(s) == s;
    ParseDigitsOfNat(m);
  }

  lemma ParseNegativeString(m: nat)
    ensures ParseInt("-" + NatToString(m)) == Negate(Int(m))
  {
    var d := NatToString(m);
    var s := "-" + d;
    assert s[0] == '-' && !IsSpace(s[0]);
    assert TrimStart(s) == s;
    assert s[1..] == d;
    assert ParseSigned(s) == Negate(ParseDigits(d));
    ParseDigitsOfNat(m);
  }

  /** `parseInt` reads back every integer a template literal renders. */
  lemma ParseIntRoundTrip(n: int)
    ensures ParseInt(IntToString(n)) == Int(n)
  {
    if n < 0 {
      ParseNegativeString(-n);
    } else {
      ParseNatString(n);
    }
  }

  /** The digits of a rendered number stop where a non-digit follows them. */
  lemma {:induction false} LeadingDigitsOfPrefix(d: string, rest: string)
    requires forall i :: 0 <= i < |d| ==> IsDigit(d[i])
    requires rest == [] || !IsDigit(rest[0])
    ensures LeadingDigits(d + rest) == d
    decreases |d|
  {
    if d == [] {
      assert d + rest == rest;
    } else {
      assert (d + rest)[1..] == d[1..] + rest;
      LeadingDigitsOfPrefix(d[1..], rest);
      assert [d[0]] + d[1..] == d;
    }
  }

  /** `parseInt` reads a rendered integer back from the front of a label, whatever
      non-digit text follows it. */
  lemma ParseIntOfLabel(n: int, rest: string)
    requires rest == [] || !IsDigit(rest[0])
    ensures ParseInt(IntToString(n) + rest) == Int(n)
  {
    if n < 0 {
      var m: nat := -n;
      ParseNegativeLabel(m, rest);
      assert IntToString(n) == "-" + NatToString(m);
      assert Negate(Int(m)) == Int(n);
    } else {
      ParseNatLabel(n, rest);
      assert IntToString(n) == NatToString(n);
    }
  }

  lemma ParseNatLabel(m: nat, rest: string)
    requires rest == [] || !IsDigit(rest[0])
    ensures ParseInt(NatToString(m) + rest) == Int(m)
  {
    var d := NatToString(m);
    NatToStringValue(m);
    LeadingDigitsOfPrefix(d, rest);
    var s := d + rest;
    assert s[0] == d[0] && IsDigit(s[0]) && !IsSpace(s[0]);
    assert TrimStart(s) == s;
    assert ParseSigned(s) == ParseDigits(s);
  }

  lemma ParseNegativeLabel(m: nat, rest: string)
    requires rest == [] || !IsDigit(rest[0])
    ensures ParseInt("-" + NatToString(m) + rest) == Negate(Int(m))
  {
    var d := NatToString(m);
    NatToStringValue(m);
    LeadingDigitsOfPrefix(d, rest);
    var tail := d + rest;
    assert ParseDigits(tail) == Int(m);
    var s := "-" + tail;
    assert "-" + d + rest == s;
    assert s[0] == '-' && !IsSpace(s[0]);
    assert TrimStart(s) == s;
    assert s[1..] == tail;
    assert ParseSigned(s) == Negate(Int(m));
  }

  /** Small numbers render as their one digit. */
  lemma SmallNumberRendering()
    ensures IntToString(1) == "1"
    ensures IntToString(-1) == "-1"
  {
    assert NatToString(1) == [DigitChar(1)];
  }
}
