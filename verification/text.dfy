/** String helpers with JavaScript semantics: `split`/`join` on one separator
    character, `replace` of every occurrence of a character, the `x || d`
    fallback for strings and `parseInt`. */
module Text {
  import opened Wrappers

  /** JavaScript truthiness of a string: only the empty string is falsy. */
  predicate Truthy(s: string) {
    s != ""
  }

  /** `value || fallback` where `value` is an optional string: an absent or
      empty value falls back. */
  function OrElse(value: Option<string>, fallback: string): (r: string)
    ensures value.Some? && value.value != "" ==> r == value.value
    ensures value.None? || value.value == "" ==> r == fallback
  {
    if value.Some? && Truthy(value.value) then value.value else fallback
  }

  /** `parts.join(sep)` for a one-character separator. */
  function JoinWith(parts: seq<string>, sep: char): string
  {
    if |parts| == 0 then ""
    else if |parts| == 1 then parts[0]
    else parts[0] + [sep] + JoinWith(parts[1..], sep)
  }

  /** `s.split(sep)` for a one-character separator: always at least one part,
      no part contains the separator, and joining the parts gives `s` back. */
  function Split(s: string, sep: char): (parts: seq<string>)
    ensures |parts| >= 1
    ensures forall i :: 0 <= i < |parts| ==> sep !in parts[i]
    ensures JoinWith(parts, sep) == s
    decreases |s|
  {
    if |s| == 0 then [""]
    else if s[0] == sep then
      var rest := Split(s[1..], sep);
      assert s == [] + [sep] + s[1..];
      [""] + rest
    else
      var rest := Split(s[1..], sep);
      var parts := [[s[0]] + rest[0]] + rest[1..];
      assert parts[1..] == rest[1..];
      assert s == [s[0]] + s[1..];
      parts
  }

  /** Splitting a join of separator-free parts gives the parts back. */
  lemma {:induction false} SplitJoin(parts: seq<string>, sep: char)
    requires |parts| >= 1
    requires forall i :: 0 <= i < |parts| ==> sep !in parts[i]
    ensures Split(JoinWith(parts, sep), sep) == parts
    decreases |parts|, |parts[0]|
  {
    if |parts| == 1 {
      SplitNoSep(parts[0], sep);
    } else if |parts[0]| == 0 {
      var tail := parts[1..];
      SplitJoin(tail, sep);
      assert JoinWith(parts, sep) == [sep] + JoinWith(tail, sep);
      assert ([sep] + JoinWith(tail, sep))[1..] == JoinWith(tail, sep);
      assert parts == [""] + tail;
    } else {
      var shorter := [parts[0][1..]] + parts[1..];
      forall i | 0 <= i < |shorter| ensures sep !in shorter[i] {
        if i == 0 {
          assert forall k :: 0 <= k < |parts[0][1..]| ==> parts[0][1..][k] == parts[0][k + 1];
        } else {
          assert shorter[i] == parts[i];
        }
      }
      SplitJoin(shorter, sep);
      JoinWithHead(parts, sep);
      var j := JoinWith(parts, sep);
      assert j[0] == parts[0][0] && j[0] != sep;
      assert j[1..] == JoinWith(shorter, sep);
      assert shorter[0] == parts[0][1..] && shorter[1..] == parts[1..];
      assert [parts[0][0]] + parts[0][1..] == parts[0];
      assert parts == [parts[0]] + parts[1..];
    }
  }

  /** Joining parts whose first part is not empty starts with that part's
      first character, followed by the join with the character removed. */
  lemma JoinWithHead(parts: seq<string>, sep: char)
    requires |parts| >= 2 && |parts[0]| > 0
    ensures JoinWith(parts, sep) == [parts[0][0]] + JoinWith([parts[0][1..]] + parts[1..], sep)
  {
    var shorter := [parts[0][1..]] + parts[1..];
    assert shorter[1..] == parts[1..];
    assert parts[0] == [parts[0][0]] + parts[0][1..];
  }

  /** A separator-free string splits into itself alone. */
  lemma {:induction false} SplitNoSep(s: string, sep: char)
    requires sep !in s
    ensures Split(s, sep) == [s]
    decreases |s|
  {
    if |s| > 0 {
      assert sep !in s[1..] by {
        assert forall k :: 0 <= k < |s[1..]| ==> s[1..][k] == s[k + 1];
      }
      SplitNoSep(s[1..], sep);
      assert [s[0]] + s[1..] == s;
    }
  }

  /** Replace every occurrence of character `c` by `replacement`, as
      `s.replace(/c/g, replacement)` does. A one-character replacement
      leaves every other character where it was. */
  function ReplaceAll(s: string, c: char, replacement: string): (r: string)
    ensures c !in replacement ==> c !in r
    ensures c !in s ==> r == s
    ensures |r| == |s| + Count(s, c) * (|replacement| - 1)
    ensures |replacement| == 1 ==>
              forall i :: 0 <= i < |s| ==> r[i] == (if s[i] == c then replacement[0] else s[i])
  {
    if |s| == 0 then ""
    else
      var rest := ReplaceAll(s[1..], c, replacement);
      var k := |replacement| - 1;
      assert forall j :: 0 <= j < |s[1..]| ==> s[1..][j] == s[j + 1];
      if s[0] == c then
        MulSucc(Count(s[1..], c), k);
        replacement + rest
      else
        assert s == [s[0]] + s[1..];
        [s[0]] + rest
  }

  /** Replacing in a concatenation replaces in each part. */
  lemma {:induction false} ReplaceAllAppend(a: string, b: string, c: char, replacement: string)
    ensures ReplaceAll(a + b, c, replacement) == ReplaceAll(a, c, replacement) + ReplaceAll(b, c, replacement)
    decreases |a|
  {
    if |a| == 0 {
      assert a + b == b;
    } else {
      assert (a + b)[0] == a[0] && (a + b)[1..] == a[1..] + b;
      ReplaceAllAppend(a[1..], b, c, replacement);
    }
  }

  /** Every character is replaced where it stands: the text before it is
      replaced on its own, then the character itself (by `replacement` when
      it is `c`, unchanged otherwise), then the text after it. */
  lemma ReplaceAllSplice(s: string, c: char, replacement: string, i: nat)
    requires i < |s|
    ensures ReplaceAll(s, c, replacement)
            == ReplaceAll(s[..i], c, replacement)
               + (if s[i] == c then replacement else [s[i]])
               + ReplaceAll(s[i + 1..], c, replacement)
  {
    assert s == s[..i] + ([s[i]] + s[i + 1..]);
    ReplaceAllAppend(s[..i], [s[i]] + s[i + 1..], c, replacement);
    ReplaceAllAppend([s[i]], s[i + 1..], c, replacement);
    assert [s[i]][1..] == [];
  }

  lemma MulSucc(n: nat, k: int)
    ensures (n + 1) * k == k + n * k
  {
  }

  /** Number of occurrences of `c` in `s`. */
  function Count(s: string, c: char): nat
  {
    if |s| == 0 then 0 else (if s[0] == c then 1 else 0) + Count(s[1..], c)
  }

  // ---------------------------------------------------------------------
  // parseInt

  /** A JavaScript number as `parseInt` produces it. */
  datatype JsInt = Int(value: int) | NaN

  predicate IsDigit(c: char) {
    '0' <= c <= '9'
  }

  predicate IsHexDigit(c: char) {
    IsDigit(c) || 'a' <= c <= 'f' || 'A' <= c <= 'F'
  }

  /** The white-space characters `parseInt` skips before the number (the
      common ASCII ones plus no-break space and the byte-order mark). */
  predicate IsJsSpace(c: char) {
    c == ' ' || c == '\t' || c == '\n' || c == '\r' || c == '\U{000B}' || c == '\U{000C}'
    || c == '\U{00A0}' || c == '\U{FEFF}'
  }

  function DigitValue(c: char): nat
    requires IsHexDigit(c)
  {
    if IsDigit(c) then (c as int - '0' as int) as nat
    else if 'a' <= c <= 'f' then (c as int - 'a' as int + 10) as nat
    else (c as int - 'A' as int + 10) as nat
  }

  /** Length of the longest prefix of `s` made of digits valid in `radix`. */
  function DigitPrefix(s: string, radix: nat): (n: nat)
    requires radix == 10 || radix == 16
    ensures n <= |s|
    ensures forall i :: 0 <= i < n ==> IsHexDigit(s[i]) && DigitValue(s[i]) < radix
    ensures n < |s| ==> !(IsHexDigit(s[n]) && DigitValue(s[n]) < radix)
  {
    if |s| > 0 && IsHexDigit(s[0]) && DigitValue(s[0]) < radix then 1 + DigitPrefix(s[1..], radix)
    else 0
  }

  /** Value of a digit string read most-significant digit first. */
  function DigitsValue(ds: string, radix: nat): nat
    requires radix == 10 || radix == 16
    requires forall i :: 0 <= i < |ds| ==> IsHexDigit(ds[i])
    decreases |ds|
  {
    if |ds| == 0 then 0
    else DigitsValue(ds[..|ds| - 1], radix) * radix + DigitValue(ds[|ds| - 1])
  }

  /** Number of leading white-space characters. */
  function LeadingSpace(s: string): (n: nat)
    ensures n <= |s|
    ensures forall i :: 0 <= i < n ==> IsJsSpace(s[i])
    ensures n < |s| ==> !IsJsSpace(s[n])
  {
    if |s| > 0 && IsJsSpace(s[0]) then 1 + LeadingSpace(s[1..]) else 0
  }

  /** `parseInt(s, 10)` when `explicitDecimal`, otherwise `parseInt(s)`, which
      also reads a `0x`/`0X` prefix as hexadecimal: skip white space, read an
      optional sign, then the longest run of digits; no digit gives NaN. */
  function ParseInt(s: string, explicitDecimal: bool): JsInt
  {
    ParseSigned(s[LeadingSpace(s)..], explicitDecimal)
  }

  /** What follows the white space: an optional sign, then the magnitude. */
  function ParseSigned(t: string, explicitDecimal: bool): JsInt
  {
    if |t| > 0 && t[0] == '-' then Negate(ParseMagnitude(t[1..], explicitDecimal))
    else if |t| > 0 && t[0] == '+' then ParseMagnitude(t[1..], explicitDecimal)
    else ParseMagnitude(t, explicitDecimal)
  }

  function Negate(x: JsInt): JsInt {
    match x
    case Int(v) => Int(-v)
    case NaN => NaN
  }

  predicate HexPrefix(u: string) {
    |u| >= 2 && u[0] == '0' && (u[1] == 'x' || u[1] == 'X')
  }

  /** The unsigned part: hexadecimal after `0x` unless the radix is fixed. */
  function ParseMagnitude(u: string, explicitDecimal: bool): JsInt
  {
    if !explicitDecimal && HexPrefix(u) then ParseRun(u[2..], 16) else ParseRun(u, 10)
  }

  /** The longest run of digits at the start of `body`, or NaN when empty. */
  function ParseRun(body: string, radix: nat): JsInt
    requires radix == 10 || radix == 16
  {
    var n := DigitPrefix(body, radix);
    if n == 0 then NaN else Int(DigitsValue(body[..n], radix))
  }

  /** Decimal representation of a natural number, without leading zeros. */
  function Decimal(n: nat): (ds: string)
    ensures |ds| >= 1
    ensures forall i :: 0 <= i < |ds| ==> IsDigit(ds[i])
    ensures DigitsValue(ds, 10) == n
  {
    var last := ['0' + (n % 10) as char];
    if n < 10 then
      assert DigitsValue(last, 10) == DigitsValue(last[..0], 10) * 10 + DigitValue(last[0]);
      last
    else
      var ds := Decimal(n / 10) + last;
      assert ds[..|ds| - 1] == Decimal(n / 10);
      ds
  }

  /** `parseInt` reads back every decimal numeral, with either radix rule,
      and also with a leading minus sign. */
  lemma ParseDecimal(n: nat, explicitDecimal: bool)
    ensures ParseInt(Decimal(n), explicitDecimal) == Int(n)
    ensures n > 0 ==> ParseInt("-" + Decimal(n), explicitDecimal) == Int(-(n as int))
  {
    var ds := Decimal(n);
    ParseDigits(ds, explicitDecimal);
    if n > 0 {
      ParseNegativeDigits(ds, explicitDecimal);
    }
  }

  /** White space in front of a numeral does not change what `parseInt` reads. */
  lemma ParseIntSkipsSpace(c: char, s: string, explicitDecimal: bool)
    requires IsJsSpace(c)
    ensures ParseInt([c] + s, explicitDecimal) == ParseInt(s, explicitDecimal)
  {
    var cs := [c] + s;
    assert cs[1..] == s;
    var k := LeadingSpace(s);
    assert LeadingSpace(cs) == 1 + k;
    assert cs[1 + k..] == s[k..];
  }

  /** A digit string has no `0x` prefix, so either radix rule reads it in
      decimal. */
  lemma DigitsNotHex(ds: string)
    requires forall i :: 0 <= i < |ds| ==> IsDigit(ds[i])
    ensures !HexPrefix(ds)
  {
    if |ds| >= 2 {
      assert IsDigit(ds[1]);
    }
  }

  lemma ParseDigits(ds: string, explicitDecimal: bool)
    requires |ds| >= 1 && forall i :: 0 <= i < |ds| ==> IsDigit(ds[i])
    ensures ParseInt(ds, explicitDecimal) == Int(DigitsValue(ds, 10))
  {
    assert !IsJsSpace(ds[0]) && ds[0] != '-' && ds[0] != '+' by { assert IsDigit(ds[0]); }
    assert LeadingSpace(ds) == 0;
    assert ds[0..] == ds;
    DigitsNotHex(ds);
    ParseRunDigits(ds);
  }

  lemma ParseNegativeDigits(ds: string, explicitDecimal: bool)
    requires |ds| >= 1 && forall i :: 0 <= i < |ds| ==> IsDigit(ds[i])
    ensures ParseInt("-" + ds, explicitDecimal) == Int(-(DigitsValue(ds, 10) as int))
  {
    var m := "-" + ds;
    ParseMinus(m, explicitDecimal);
    assert m[1..] == ds;
    DigitsNotHex(ds);
    ParseRunDigits(ds);
  }

  /** A leading minus sign negates what follows it. */
  lemma ParseMinus(m: string, explicitDecimal: bool)
    requires |m| > 0 && m[0] == '-'
    ensures ParseInt(m, explicitDecimal) == Negate(ParseMagnitude(m[1..], explicitDecimal))
  {
    assert !IsJsSpace(m[0]);
    assert LeadingSpace(m) == 0;
    assert m[0..] == m;
  }

  lemma ParseRunDigits(ds: string)
    requires |ds| >= 1 && forall i :: 0 <= i < |ds| ==> IsDigit(ds[i])
    ensures ParseRun(ds, 10) == Int(DigitsValue(ds, 10))
  {
    DigitPrefixAll(ds);
    assert ds[..|ds|] == ds;
  }

  lemma DigitPrefixAll(ds: string)
    requires forall i :: 0 <= i < |ds| ==> IsDigit(ds[i])
    ensures DigitPrefix(ds, 10) == |ds|
  {
    if |ds| > 0 {
      DigitPrefixAll(ds[1..]);
    }
  }
}
