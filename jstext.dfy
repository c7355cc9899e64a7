/** The JavaScript built-ins that the front-end script relies on, restricted to
    the values it passes them: `String(v)`, truthiness, `parseInt` without a
    radix, `String.prototype.replace` and `replaceAll` with a one-character
    pattern, and the decimal rendering of an integer. */
module JsText {
  import opened Wrappers

  /** A JavaScript value as it reaches the script from a form or a JSON row.
      Numbers are integers here: the script only renders integer columns. */
  datatype JsValue = Undefined | Null | Bool(b: bool) | Num(n: int) | Str(s: string)

  /** `!!v`: the falsy values are undefined, null, false, 0 and "". */
  predicate Truthy(v: JsValue) {
    match v
    case Undefined => false
    case Null => false
    case Bool(b) => b
    case Num(n) => n != 0
    case Str(s) => s != ""
  }

  /** `a || b` */
  function Or(a: JsValue, b: JsValue): (r: JsValue)
    ensures Truthy(a) ==> r == a
    ensures !Truthy(a) ==> r == b
  {
    if Truthy(a) then a else b
  }

  predicate IsDecimalDigit(c: char) {
    '0' <= c <= '9'
  }

  function DecimalDigit(d: nat): (c: char)
    requires d < 10
    ensures IsDecimalDigit(c) && DigitValue(c) == d
  {
    ('0' as int + d) as char
  }

  /** Decimal rendering of a natural number, most significant digit first,
      without leading zeros. */
  function NatToString(n: nat): (s: string)
    ensures |s| >= 1
    decreases n
  {
    if n < 10 then [DecimalDigit(n)] else NatToString(n / 10) + [DecimalDigit(n % 10)]
  }

  /** The rendering is made of decimal digits and has no leading zero. */
  lemma {:induction false} NatToStringDigits(n: nat)
    ensures forall i | 0 <= i < |NatToString(n)| :: IsDecimalDigit(NatToString(n)[i])
    ensures |NatToString(n)| > 1 ==> NatToString(n)[0] != '0'
    decreases n
  {
    if n >= 10 {
      NatToStringDigits(n / 10);
      var s := NatToString(n);
      assert s[..|s| - 1] == NatToString(n / 10);
      assert s[0] == NatToString(n / 10)[0];
    }
  }

  /** `String(n)` for an integer: an optional minus sign, then the digits. */
  function IntToString(n: int): (s: string)
    ensures |s| >= 1
  {
    if n < 0 then "-" + NatToString(-n) else NatToString(n)
  }

  /** `String(n)` holds digits only, after a leading minus sign for a
      negative number. */
  lemma IntToStringChars(n: int)
    ensures forall i | 0 <= i < |IntToString(n)| :: IsDecimalDigit(IntToString(n)[i]) || (i == 0 && IntToString(n)[i] == '-')
  {
    NatToStringDigits(if n < 0 then -n else n);
  }

  /** `String(v)` */
  function ToJsString(v: JsValue): string {
    match v
    case Undefined => "undefined"
    case Null => "null"
    case Bool(b) => if b then "true" else "false"
    case Num(n) => IntToString(n)
    case Str(s) => s
  }

  /** The white space that `parseInt` skips before the number: the line
      terminators, tab, vertical tab, form feed, the byte order mark and the
      Unicode space separators. */
  predicate IsJsWhiteSpace(c: char) {
    c == ' ' || c == '\t' || c == '\n' || c == '\r' || c == '\U{000B}' || c == '\U{000C}'
    || c == '\U{00A0}' || c == '\U{FEFF}' || c == '\U{2028}' || c == '\U{2029}'
    || c == '\U{1680}' || ('\U{2000}' <= c <= '\U{200A}') || c == '\U{202F}' || c == '\U{205F}'
    || c == '\U{3000}'
  }

  function TrimStart(s: string): string {
    if s != [] && IsJsWhiteSpace(s[0]) then TrimStart(s[1..]) else s
  }

  /** The value of a digit in radix up to 36; 36 for a character that is no digit. */
  function DigitValue(c: char): (d: nat)
    ensures d <= 36
  {
    if '0' <= c <= '9' then c as int - '0' as int
    else if 'a' <= c <= 'z' then c as int - 'a' as int + 10
    else if 'A' <= c <= 'Z' then c as int - 'A' as int + 10
    else 36
  }

  /** Length of the longest prefix of `s` made of digits of the radix. */
  function DigitPrefixLength(s: string, radix: nat): (k: nat)
    ensures k <= |s|
  {
    if s != [] && DigitValue(s[0]) < radix then 1 + DigitPrefixLength(s[1..], radix) else 0
  }

  /** The number that a string of digits denotes, most significant digit
      first; it is only applied to runs of digits of the radix. */
  function DigitsValue(ds: string, radix: nat): nat {
    if ds == [] then 0 else DigitsValue(ds[..|ds| - 1], radix) * radix + DigitValue(ds[|ds| - 1])
  }

  predicate HasHexPrefix(u: string) {
    |u| >= 2 && u[0] == '0' && (u[1] == 'x' || u[1] == 'X')
  }

  /** The unsigned part of `parseInt`: an optional `0x`/`0X` prefix selects
      radix 16 (else 10), then the longest run of digits is read; `None`
      (NaN) when that run is empty. */
  function ParseMagnitude(u: string): Option<nat> {
    var radix := if HasHexPrefix(u) then 16 else 10;
    var v := if HasHexPrefix(u) then u[2..] else u;
    var k := DigitPrefixLength(v, radix);
    if k == 0 then None else Some(DigitsValue(v[..k], radix))
  }

  /** `parseInt(s)` with no radix argument: skip leading white space, take an
      optional sign, then read the magnitude. */
  function ParseInt(s: string): Option<int> {
    var t := TrimStart(s);
    var negative := t != [] && t[0] == '-';
    var u := if t != [] && (t[0] == '-' || t[0] == '+') then t[1..] else t;
    match ParseMagnitude(u)
    case None => None
    case Some(m) => var value: int := if negative then -(m as int) else m; Some(value)
  }

  lemma {:induction false} DigitsValueOfNatToString(n: nat)
    ensures DigitsValue(NatToString(n), 10) == n
    decreases n
  {
    var s := NatToString(n);
    if n >= 10 {
      DigitsValueOfNatToString(n / 10);
      assert s[..|s| - 1] == NatToString(n / 10);
    }
  }

  lemma {:induction false} DigitPrefixOfDigits(s: string)
    requires forall i | 0 <= i < |s| :: IsDecimalDigit(s[i])
    ensures DigitPrefixLength(s, 10) == |s|
  {
    if s != [] {
      assert IsDecimalDigit(s[0]);
      DigitPrefixOfDigits(s[1..]);
    }
  }

  /** The unsigned tail of a rendering: decimal digits with no `0x` prefix. */
  lemma ParseUnsignedTail(m: nat)
    ensures ParseMagnitude(NatToString(m)) == Some(m)
  {
    var u := NatToString(m);
    NatToStringDigits(m);
    assert !HasHexPrefix(u) by {
      assert |u| >= 2 ==> IsDecimalDigit(u[1]);
    }
    DigitPrefixOfDigits(u);
    DigitsValueOfNatToString(m);
    assert u[..|u|] == u;
  }

  lemma TrimStartOfRendering(n: int)
    ensures TrimStart(IntToString(n)) == IntToString(n)
  {
    var s := IntToString(n);
    IntToStringChars(n);
    assert s[0] == '-' || IsDecimalDigit(s[0]);
    assert !IsJsWhiteSpace(s[0]);
  }

  lemma ParseSignedTail(t: string, m: nat)
    requires TrimStart(t) == t && t != [] && t[0] == '-' && t[1..] == NatToString(m)
    ensures ParseInt(t) == Some(-(m as int))
  {
    ParseUnsignedTail(m);
  }

  /** `parseInt` reads back every integer that `String` renders. */
  lemma ParseIntToString(n: int)
    ensures ParseInt(IntToString(n)) == Some(n)
  {
    TrimStartOfRendering(n);
    var s := IntToString(n);
    if n < 0 {
      assert s[1..] == NatToString(-n);
      ParseSignedTail(s, -n);
    } else {
      assert s == NatToString(n);
      ParseUnsignedTail(n);
    }
  }

  /** `s` begins with `pat`, compared character by character. */
  predicate StartsWith(s: string, pat: string)
    decreases pat
  {
    pat == [] || (s != [] && s[0] == pat[0] && StartsWith(s[1..], pat[1..]))
  }

  /** `s.replace(pat, rep)` with a string pattern: the first occurrence of
      `pat`, if any, is replaced by `rep`. */
  function ReplaceFirst(s: string, pat: string, rep: string): (r: string)
    decreases |s|
  {
    if |s| < |pat| then s
    else if StartsWith(s, pat) then rep + s[|pat|..]
    else [s[0]] + ReplaceFirst(s[1..], pat, rep)
  }

  /** Removing the first "px" from a rendering that ends in "px" and holds no
      other 'p' gives back the rendering without its unit. */
  lemma {:induction false} ReplaceFirstUnit(a: string)
    requires forall i | 0 <= i < |a| :: a[i] != 'p'
    ensures ReplaceFirst(a + "px", "px", "") == a
  {
    var s := a + "px";
    if a == [] {
      assert s == "px";
    } else {
      assert !StartsWith(s, "px") by { assert s[0] == a[0]; }
      assert s[1..] == a[1..] + "px";
      ReplaceFirstUnit(a[1..]);
    }
  }

  /** `s.replaceAll(pat, rep)` for a one-character pattern: every occurrence
      of `pat` is replaced by `rep`, every other character is kept in order. */
  function ReplaceAll(s: string, pat: char, rep: string): (r: string)
    ensures pat !in s ==> r == s
  {
    if s == [] then []
    else (if s[0] == pat then rep else [s[0]]) + ReplaceAll(s[1..], pat, rep)
  }

  lemma {:induction false} ReplaceAllAppend(a: string, b: string, pat: char, rep: string)
    ensures ReplaceAll(a + b, pat, rep) == ReplaceAll(a, pat, rep) + ReplaceAll(b, pat, rep)
  {
    if a != [] {
      assert (a + b)[1..] == a[1..] + b;
      ReplaceAllAppend(a[1..], b, pat, rep);
    } else {
      assert a + b == b;
    }
  }
}
