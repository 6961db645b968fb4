/**
 * The JavaScript values and built-in string operations the backend relies on:
 * truthiness, `String(v)`, `trim`, `toLowerCase`, `includes`, `substring(0, n)`,
 * `join`, `split(c)[0]` and `parseInt`.
 */
module JsValues {
  import opened Wrappers

  /**
   * A value as it arrives in a JSON request body, a query string or a parsed
   * model answer. `Undefined` is a missing key; `Composite` is any object or array.
   * Numbers are integers (no fractions, no NaN).
   */
  datatype Value = Undefined | Null | Bool(b: bool) | Num(n: int) | Str(s: string) | Composite

  /** JavaScript truthiness: what `if (v)` and `!v` test. */
  predicate Truthy(v: Value) {
    match v
    case Undefined => false
    case Null => false
    case Bool(b) => b
    case Num(n) => n != 0
    case Str(s) => s != ""
    case Composite => true
  }

  /** `v || d` */
  function Or(v: Value, d: Value): Value {
    if Truthy(v) then v else d
  }

  /** A string field that may be missing, read as `field || ''`. */
  function OrEmpty(o: Option<string>): string {
    if o.Some? then o.value else ""
  }

  /** JavaScript truthiness of an optional string: present and non-empty. */
  predicate Present(o: Option<string>) {
    o.Some? && o.value != ""
  }

  // ---------------------------------------------------------------------------
  // Decimal digits and String(v)

  predicate IsDecimalDigit(c: char) {
    '0' <= c <= '9'
  }

  function DigitChar(d: nat): (c: char)
    requires d < 10
    ensures IsDecimalDigit(c) && DigitOf(c) == d
  {
    "0123456789"[d]
  }

  /** The shortest decimal representation of `n`. */
  function Decimal(n: nat): (r: string)
    ensures |r| > 0
    ensures forall i :: 0 <= i < |r| ==> IsDecimalDigit(r[i])
  {
    if n < 10 then [DigitChar(n)] else Decimal(n / 10) + [DigitChar(n % 10)]
  }

  /** `String(n)` for an integer-valued number. */
  function NumberToString(n: int): string {
    if n < 0 then "-" + Decimal(-n) else Decimal(n)
  }

  /** `String(v)`, as used by template literals. */
  function ToJsString(v: Value): string {
    match v
    case Undefined => "undefined"
    case Null => "null"
    case Bool(b) => if b then "true" else "false"
    case Num(n) => NumberToString(n)
    case Str(s) => s
    case Composite => "[object Object]"
  }

  // ---------------------------------------------------------------------------
  // Whitespace and trim

  /** The white-space and line-terminator code points that `trim` and `parseInt` skip. */
  predicate IsJsWhitespace(c: char) {
    c == '\t' || c == '\n' || c == '\U{000B}' || c == '\U{000C}' || c == '\r' || c == ' '
    || c == '\U{00A0}' || c == '\U{1680}' || ('\U{2000}' <= c <= '\U{200A}')
    || c == '\U{2028}' || c == '\U{2029}' || c == '\U{202F}' || c == '\U{205F}'
    || c == '\U{3000}' || c == '\U{FEFF}'
  }

  /** `trimStart`: the suffix left after dropping leading white space. */
  function TrimStart(s: string): (r: string)
    ensures |r| <= |s| && r == s[|s| - |r|..]
    ensures forall i :: 0 <= i < |s| - |r| ==> IsJsWhitespace(s[i])
    ensures r == [] || !IsJsWhitespace(r[0])
  {
    if s != [] && IsJsWhitespace(s[0]) then TrimStart(s[1..]) else s
  }

  /** `trimEnd`: the prefix left after dropping trailing white space. */
  function TrimEnd(s: string): (r: string)
    ensures |r| <= |s| && r == s[..|r|]
    ensures forall i :: |r| <= i < |s| ==> IsJsWhitespace(s[i])
    ensures r == [] || !IsJsWhitespace(r[|r| - 1])
  {
    if s != [] && IsJsWhitespace(s[|s| - 1]) then TrimEnd(s[..|s| - 1]) else s
  }

  /** `trim`. */
  function Trim(s: string): (r: string)
    ensures r == [] || (!IsJsWhitespace(r[0]) && !IsJsWhitespace(r[|r| - 1]))
    ensures exists i {:trigger s[i..]} ::
      && 0 <= i <= |s| && r <= s[i..]
      && (forall k :: 0 <= k < i ==> IsJsWhitespace(s[k]))
      && (forall k :: i + |r| <= k < |s| ==> IsJsWhitespace(s[k]))
    ensures forall c :: c in r ==> c in s
  {
    var t := TrimStart(s);
    var r := TrimEnd(t);
    TrimWindow(s);
    r
  }

  /** `trimEnd` of `trimStart` is the block of `s` between its leading and trailing white space. */
  lemma TrimWindow(s: string)
    ensures var r := TrimEnd(TrimStart(s));
      && (exists i {:trigger s[i..]} ::
            && 0 <= i <= |s| && r <= s[i..]
            && (forall k :: 0 <= k < i ==> IsJsWhitespace(s[k]))
            && (forall k :: i + |r| <= k < |s| ==> IsJsWhitespace(s[k])))
      && forall c :: c in r ==> c in s
  {
    var t := TrimStart(s);
    var r := TrimEnd(t);
    var i := |s| - |t|;
    assert t == s[i..];
    assert r <= s[i..];
    forall k | i + |r| <= k < |s| ensures IsJsWhitespace(s[k]) {
      assert s[k] == t[k - i];
    }
    forall c | c in r ensures c in s {
      assert c in t;
    }
  }

  /** `s.trim() === ''` exactly when every character of `s` is white space. */
  lemma TrimEmptyIff(s: string)
    ensures Trim(s) == "" <==> forall i :: 0 <= i < |s| ==> IsJsWhitespace(s[i])
  {
    var t := TrimStart(s);
    TrimStartEmptyIff(s);
    TrimEndKeepsNonEmpty(t);
  }

  lemma TrimStartEmptyIff(s: string)
    ensures TrimStart(s) == "" <==> forall i :: 0 <= i < |s| ==> IsJsWhitespace(s[i])
  {
    var t := TrimStart(s);
    if t != [] {
      assert t[0] == s[|s| - |t|];
    }
  }

  /** `trimEnd` of a string that starts with a non-white-space character is not empty. */
  lemma TrimEndKeepsNonEmpty(t: string)
    requires t == [] || !IsJsWhitespace(t[0])
    ensures TrimEnd(t) == "" <==> t == ""
  {
  }

  /** Trimming twice is trimming once. */
  lemma TrimIdempotent(s: string)
    ensures Trim(Trim(s)) == Trim(s)
  {
    var r := Trim(s);
    assert TrimStart(r) == r;
    assert TrimEnd(r) == r;
  }

  // ---------------------------------------------------------------------------
  // toLowerCase, includes, substring, join, split

  /** `toLowerCase` on one character (ASCII letters only). */
  function LowerChar(c: char): char {
    if 'A' <= c <= 'Z' then (c as int + 32) as char else c
  }

  /** `toLowerCase` (ASCII letters only). */
  function Lower(s: string): string {
    seq(|s|, i requires 0 <= i < |s| => LowerChar(s[i]))
  }

  /** `s.includes(sub)`: `sub` occurs in `s` as a contiguous block. */
  predicate Contains(s: string, sub: string) {
    sub <= s || (s != [] && Contains(s[1..], sub))
  }

  /** `s.substring(0, n)` for `n >= 0`. */
  function Take<T>(s: seq<T>, n: nat): (r: seq<T>)
    ensures |r| == if |s| <= n then |s| else n
    ensures r <= s
  {
    if |s| <= n then s else s[..n]
  }

  /** `parts.join(sep)`. */
  function Join(parts: seq<string>, sep: string): string {
    if |parts| == 0 then ""
    else if |parts| == 1 then parts[0]
    else parts[0] + sep + Join(parts[1..], sep)
  }

  /** `s.split(c)[0]`: everything before the first `c`, or all of `s` when there is none. */
  function SplitHead(s: string, c: char): (r: string)
    ensures r <= s
    ensures c !in r
    ensures |r| < |s| ==> s[|r|] == c
  {
    if s == [] || s[0] == c then [] else [s[0]] + SplitHead(s[1..], c)
  }

  // ---------------------------------------------------------------------------
  // parseInt

  /** The value of `c` as a digit in bases up to 36; 36 for a character that is no digit. */
  function DigitOf(c: char): nat {
    if '0' <= c <= '9' then c as int - '0' as int
    else if 'a' <= c <= 'z' then c as int - 'a' as int + 10
    else if 'A' <= c <= 'Z' then c as int - 'A' as int + 10
    else 36
  }

  /** The longest prefix of `s` made of digits of base `radix`. */
  function DigitPrefix(s: string, radix: nat): (r: string)
    ensures r <= s
    ensures forall i :: 0 <= i < |r| ==> DigitOf(r[i]) < radix
    ensures |r| < |s| ==> DigitOf(s[|r|]) >= radix
  {
    if s == [] || DigitOf(s[0]) >= radix then [] else [s[0]] + DigitPrefix(s[1..], radix)
  }

  /** The value of a string of base-`radix` digits, most significant first. */
  function DigitsValue(z: string, radix: nat): nat {
    if z == [] then 0
    else DigitsValue(z[..|z| - 1], radix) * radix + (if DigitOf(z[|z| - 1]) < radix then DigitOf(z[|z| - 1]) else 0)
  }

  /**
   * `parseInt(s)` with no radix: skip leading white space, take an optional sign,
   * read base 16 after a `0x`/`0X` prefix and base 10 otherwise, stop at the first
   * non-digit; `None` stands for `NaN` (no digit at all).
   */
  function ParseInt(s: string): Option<int> {
    var t := TrimStart(s);
    if |t| > 0 && t[0] == '-' then
      match ParseMagnitude(t[1..])
      case None => None
      case Some(m) => Some(0 - m)
    else if |t| > 0 && t[0] == '+' then ParseMagnitude(t[1..])
    else ParseMagnitude(t)
  }

  /** The unsigned part of `parseInt`: radix detection and the digit run. */
  function ParseMagnitude(u: string): Option<int> {
    var hex := |u| >= 2 && u[0] == '0' && (u[1] == 'x' || u[1] == 'X');
    var radix := if hex then 16 else 10;
    var z := DigitPrefix(if hex then u[2..] else u, radix);
    if z == [] then None else Some(DigitsValue(z, radix) as int)
  }

  lemma {:induction false} DigitsValueDecimal(n: nat)
    ensures DigitsValue(Decimal(n), 10) == n
  {
    var d := Decimal(n);
    if n >= 10 {
      DigitsValueDecimal(n / 10);
      assert d[..|d| - 1] == Decimal(n / 10);
      assert d[|d| - 1] == DigitChar(n % 10);
    }
  }

  lemma DigitPrefixAll(s: string, radix: nat)
    requires forall i :: 0 <= i < |s| ==> DigitOf(s[i]) < radix
    ensures DigitPrefix(s, radix) == s
  {
  }

  /** The unsigned part of `parseInt` reads a run of decimal digits as its value. */
  lemma ParseMagnitudeDigits(d: string)
    requires |d| > 0 && forall i :: 0 <= i < |d| ==> IsDecimalDigit(d[i])
    ensures ParseMagnitude(d) == Some(DigitsValue(d, 10) as int)
  {
    DigitPrefixAll(d, 10);
    assert !(|d| >= 2 && (d[1] == 'x' || d[1] == 'X')) by {
      if |d| >= 2 { assert IsDecimalDigit(d[1]); }
    }
  }

  /** The unsigned part of `parseInt` reads the decimal form of `m` as `m`. */
  lemma ParseMagnitudeDecimal(m: nat)
    ensures ParseMagnitude(Decimal(m)) == Some(m)
  {
    DigitsValueDecimal(m);
    ParseMagnitudeDigits(Decimal(m));
  }

  /** `parseInt(String(n)) === n`: a numeric id survives the round trip through a URL path. */
  lemma ParseIntOfNumberToString(n: int)
    ensures ParseInt(NumberToString(n)) == Some(n)
  {
    if n < 0 {
      ParseIntOfNegative(n);
    } else {
      ParseIntOfNonNegative(n);
    }
  }

  lemma ParseIntOfNonNegative(n: int)
    requires n >= 0
    ensures ParseInt(NumberToString(n)) == Some(n)
  {
    var t := NumberToString(n);
    assert t == Decimal(n);
    ParseMagnitudeDecimal(n);
    assert IsDecimalDigit(t[0]);
    TrimStartKeeps(t);
  }

  lemma ParseIntOfNegative(n: int)
    requires n < 0
    ensures ParseInt(NumberToString(n)) == Some(n)
  {
    var m: nat := -n;
    var d := Decimal(m);
    var t := NumberToString(n);
    assert t == "-" + d;
    ParseMagnitudeDecimal(m);
    assert t[0] == '-' && t[1..] == d;
    TrimStartKeeps(t);
    assert ParseMagnitude(t[1..]) == Some(m);
  }

  /** `trimStart` leaves a string that starts with a non-white-space character alone. */
  lemma TrimStartKeeps(t: string)
    requires t != [] && !IsJsWhitespace(t[0])
    ensures TrimStart(t) == t
  {
  }
}
