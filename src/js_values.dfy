/** The slice of JavaScript value semantics the dashboard's code depends on:
    truthiness and `||`, `String(v)`, `(v || '').toString()`, `String.prototype.trim`,
    `toLowerCase` on ASCII letters, decimal printing of integers and `parseInt`. */
module JsValues {
  import opened Wrappers

  /** A scalar cell of the JSON payload the backend returns (sheet cells arrive as
      strings, numbers, booleans or nothing). Only integral numbers are modelled. */
  datatype Scalar = Undefined | Null | Str(s: string) | Num(n: int) | Bool(b: bool)

  /** The values `||` and `!` treat as false (NaN is not a modelled value). */
  predicate Falsy(v: Scalar) {
    v.Undefined? || v.Null? || v == Str("") || v == Num(0) || v == Bool(false)
  }

  /** An optional string is truthy when present and non-empty. */
  predicate Truthy(s: Option<string>) {
    s.Some? && s.value != ""
  }

  /** `a || b` for an optional string: `a` unless it is missing or empty. */
  function StrOr(a: Option<string>, b: string): (r: string)
    ensures a.Some? && a.value != "" ==> r == a.value
    ensures a.None? || a.value == "" ==> r == b
  {
    if a.Some? && a.value != "" then a.value else b
  }

  /** `a || b` for an optional number: `a` unless it is missing or zero. */
  function IntOr(a: Option<int>, b: int): (r: int)
    ensures a.Some? && a.value != 0 ==> r == a.value
    ensures a.None? || a.value == 0 ==> r == b
  {
    if a.Some? && a.value != 0 then a.value else b
  }

  function DigitChar(d: nat): (c: char)
    requires d < 10
    ensures '0' <= c <= '9'
  {
    ['0', '1', '2', '3', '4', '5', '6', '7', '8', '9'][d]
  }

  predicate IsDigit(c: char) {
    '0' <= c <= '9'
  }

  function DigitValue(c: char): (d: nat)
    requires IsDigit(c)
    ensures d < 10
  {
    (c as int) - ('0' as int)
  }

  /** The decimal numeral of `n`, as `String(n)` prints a non-negative integer. */
  function NatToString(n: nat): (r: string)
    ensures |r| >= 1
    ensures forall i :: 0 <= i < |r| ==> IsDigit(r[i])
    ensures n > 0 ==> r[0] != '0'
    decreases n
  {
    if n < 10 then [DigitChar(n)] else NatToString(n / 10) + [DigitChar(n % 10)]
  }

  /** Different numbers print differently. */
  lemma NatToStringInjective(a: nat, b: nat)
    requires NatToString(a) == NatToString(b)
    ensures a == b
  {
    DigitsValueOfNatToString(a);
    DigitsValueOfNatToString(b);
  }

  /** `String(n)` for an integer. */
  function IntToString(n: int): (r: string)
    ensures |r| >= 1
    ensures r[0] == '-' <==> n < 0
  {
    if n < 0 then "-" + NatToString(-n) else NatToString(n)
  }

  /** The value of a string of decimal digits, most significant first. */
  function DigitsValue(d: string): nat
    requires forall i :: 0 <= i < |d| ==> IsDigit(d[i])
  {
    if d == [] then 0 else DigitsValue(d[..|d| - 1]) * 10 + DigitValue(d[|d| - 1])
  }

  /** Reading back a printed numeral gives the number. */
  lemma {:induction false} DigitsValueOfNatToString(n: nat)
    ensures DigitsValue(NatToString(n)) == n
    decreases n
  {
    var r := NatToString(n);
    if n < 10 {
      assert r[..|r| - 1] == [];
      assert r[0] == DigitChar(n);
    } else {
      DigitsValueOfNatToString(n / 10);
      assert r[..|r| - 1] == NatToString(n / 10);
      assert r[|r| - 1] == DigitChar(n % 10);
    }
  }

  /** The longest prefix of `s` made of decimal digits. */
  function DigitPrefix(s: string): (r: string)
    ensures r <= s
    ensures forall i :: 0 <= i < |r| ==> IsDigit(r[i])
    ensures |r| < |s| ==> !IsDigit(s[|r|])
  {
    if s == [] || !IsDigit(s[0]) then [] else [s[0]] + DigitPrefix(s[1..])
  }

  /** The characters `trim` and `parseInt` skip: ECMAScript WhiteSpace and LineTerminator
      (tab, vertical tab, form feed, space, no-break space, the byte order mark, the
      Unicode space separators, line feed, carriage return, line and paragraph separators). */
  predicate IsWhitespace(c: char) {
    c == '\t' || c == '\n' || c == '\U{B}' || c == '\U{C}' || c == '\r' || c == ' '
    || c == '\U{A0}' || c == '\U{1680}' || ('\U{2000}' <= c <= '\U{200A}')
    || c == '\U{2028}' || c == '\U{2029}' || c == '\U{202F}' || c == '\U{205F}'
    || c == '\U{3000}' || c == '\U{FEFF}'
  }

  /** `s.trimStart()`: `s` without its leading white space. */
  function TrimStart(s: string): (r: string)
    ensures |r| <= |s| && r == s[|s| - |r|..]
    ensures forall i :: 0 <= i < |s| - |r| ==> IsWhitespace(s[i])
    ensures r == [] || !IsWhitespace(r[0])
  {
    if s == [] || !IsWhitespace(s[0]) then s else TrimStart(s[1..])
  }

  /** `s.trimEnd()`: `s` without its trailing white space. */
  function TrimEnd(s: string): (r: string)
    ensures |r| <= |s| && r == s[..|r|]
    ensures forall i :: |r| <= i < |s| ==> IsWhitespace(s[i])
    ensures r == [] || !IsWhitespace(r[|r| - 1])
  {
    if s == [] || !IsWhitespace(s[|s| - 1]) then s else TrimEnd(s[..|s| - 1])
  }

  /** `s.trim()`: `s` without its leading and trailing white space. */
  function Trim(s: string): (r: string)
    ensures |r| <= |s|
    ensures r == [] || (!IsWhitespace(r[0]) && !IsWhitespace(r[|r| - 1]))
  {
    TrimEnd(TrimStart(s))
  }

  /** What `trim` removes: `s` is some white space, then the result, then some white
      space. */
  lemma TrimSpec(s: string)
    ensures exists a, b ::
              && 0 <= a <= b <= |s| && Trim(s) == s[a..b]
              && (forall i :: 0 <= i < a ==> IsWhitespace(s[i]))
              && (forall i :: b <= i < |s| ==> IsWhitespace(s[i]))
  {
    var t := TrimStart(s);
    var r := TrimEnd(t);
    var a := |s| - |t|;
    assert r == s[a..a + |r|];
    forall i | a + |r| <= i < |s| ensures IsWhitespace(s[i]) {
      assert s[i] == t[i - a];
    }
  }

  /** A string that neither starts nor ends with white space is its own trim. */
  lemma TrimOfClean(s: string)
    requires s == [] || (!IsWhitespace(s[0]) && !IsWhitespace(s[|s| - 1]))
    ensures Trim(s) == s
  {
  }

  /** Trimming twice is trimming once. */
  lemma TrimIdempotent(s: string)
    ensures Trim(Trim(s)) == Trim(s)
  {
    TrimOfClean(Trim(s));
  }

  function LowerChar(c: char): (r: char)
    ensures !('A' <= r <= 'Z')
    ensures !('A' <= c <= 'Z') ==> r == c
  {
    if 'A' <= c <= 'Z' then (c as int + 32) as char else c
  }

  /** `s.toLowerCase()` restricted to ASCII letters; every other character is kept. */
  function ToLower(s: string): (r: string)
    ensures |r| == |s|
    ensures forall i :: 0 <= i < |s| ==> r[i] == LowerChar(s[i])
  {
    if s == [] then [] else [LowerChar(s[0])] + ToLower(s[1..])
  }

  /** Lower-casing is idempotent. */
  lemma ToLowerIdempotent(s: string)
    ensures ToLower(ToLower(s)) == ToLower(s)
  {
  }

  /** A string without upper-case ASCII letters is its own lower case. */
  lemma ToLowerNoUpper(s: string)
    requires forall i :: 0 <= i < |s| ==> !('A' <= s[i] <= 'Z')
    ensures ToLower(s) == s
  {
  }

  /** A string already trimmed and in lower case is its own `.trim().toLowerCase()`. */
  lemma NormalFormFixpoint(s: string)
    requires s == [] || (!IsWhitespace(s[0]) && !IsWhitespace(s[|s| - 1]))
    requires forall i :: 0 <= i < |s| ==> !('A' <= s[i] <= 'Z')
    ensures ToLower(Trim(s)) == s
  {
    TrimOfClean(s);
    ToLowerNoUpper(s);
  }

  /** ASCII lower-casing neither creates nor removes white space. */
  lemma LowerCharWhitespace(c: char)
    ensures IsWhitespace(LowerChar(c)) <==> IsWhitespace(c)
  {
  }

  /** Lower-casing a trimmed string leaves it trimmed. */
  lemma LowerOfTrimmed(s: string)
    ensures Trim(ToLower(Trim(s))) == ToLower(Trim(s))
  {
    var t := Trim(s);
    var l := ToLower(t);
    if t != [] {
      LowerCharWhitespace(t[0]);
      LowerCharWhitespace(t[|t| - 1]);
    }
    TrimOfClean(l);
  }

  /** The `.trim().toLowerCase()` normal form is a fixpoint of itself. */
  lemma LowerTrimIdempotent(s: string)
    ensures ToLower(Trim(ToLower(Trim(s)))) == ToLower(Trim(s))
  {
    LowerOfTrimmed(s);
    ToLowerIdempotent(Trim(s));
  }

  /** `String(v)` */
  function ToJsString(v: Scalar): (r: string)
    ensures v.Str? ==> r == v.s
    ensures v.Num? ==> r == IntToString(v.n)
  {
    match v
    case Undefined => "undefined"
    case Null => "null"
    case Str(s) => s
    case Num(n) => IntToString(n)
    case Bool(b) => if b then "true" else "false"
  }

  /** `(v || '').toString()`: the empty string exactly for falsy values. */
  function OrEmpty(v: Scalar): (r: string)
    ensures r == "" <==> Falsy(v)
    ensures !Falsy(v) ==> r == ToJsString(v)
    ensures v.Str? ==> r == v.s
  {
    if Falsy(v) then "" else ToJsString(v)
  }

  /** `parseInt(s)`: leading white space is skipped, then an optional sign, then the
      longest run of decimal digits; no digits gives NaN, modelled as `None`. */
  function ParseInt(s: string): (r: Option<int>)
  {
    var t := TrimStart(s);
    var negative := |t| > 0 && t[0] == '-';
    var body := if |t| > 0 && (t[0] == '-' || t[0] == '+') then t[1..] else t;
    var d := DigitPrefix(body);
    var magnitude: int := DigitsValue(d);
    if d == [] then None
    else if negative then Some(-magnitude)
    else Some(magnitude)
  }

  /** `parseInt(s) || 0`, the weight inputs' conversion: NaN and zero both give 0. */
  function ParseIntOrZero(s: string): int {
    match ParseInt(s)
    case Some(n) => n
    case None => 0
  }

  /** A string without digits after the sign reads as 0. */
  lemma ParseIntOrZeroNoDigits(s: string)
    requires forall i :: 0 <= i < |s| ==> !IsDigit(s[i])
    ensures ParseIntOrZero(s) == 0
  {
    var t := TrimStart(s);
    var body := if |t| > 0 && (t[0] == '-' || t[0] == '+') then t[1..] else t;
    if body != [] {
      assert body[0] == s[|s| - |body|];
    }
  }

  /** `parseInt(String(n)) == n`: the weight typed as a numeral is read back exactly. */
  lemma ParseIntOfIntToString(n: int)
    ensures ParseInt(IntToString(n)) == Some(n)
    ensures ParseIntOrZero(IntToString(n)) == n
  {
    var m: nat := if n < 0 then -n else n;
    var digits := NatToString(m);
    var s := IntToString(n);
    assert TrimStart(s) == s by {
      assert !IsWhitespace(s[0]);
    }
    var body := if n < 0 then s[1..] else s;
    assert body == digits;
    DigitPrefixOfDigits(digits);
    DigitsValueOfNatToString(m);
  }

  lemma {:induction false} DigitPrefixOfDigits(d: string)
    requires forall i :: 0 <= i < |d| ==> IsDigit(d[i])
    ensures DigitPrefix(d) == d
  {
    if d != [] {
      DigitPrefixOfDigits(d[1..]);
    }
  }

  /** Printing integers is injective, so comparing `String(a) === String(b)` on two
      numbers is comparing the numbers. */
  lemma IntToStringInjective(a: int, b: int)
    requires IntToString(a) == IntToString(b)
    ensures a == b
  {
    ParseIntOfIntToString(a);
    ParseIntOfIntToString(b);
  }
}
