/**
 * The JavaScript primitives the modelled code leans on, stated over `string`
 * (`seq<char>`): `null`/`undefined` as `None`, string truthiness,
 * `String.prototype.toLowerCase` on ASCII letters, `String.prototype.includes`
 * and `parseInt(s, 10)`.
 */
module Js {

  datatype Option<+T> = None | Some(value: T) {
    /** `x ?? d` */
    function GetOr(default: T): T {
      match this
      case Some(v) => v
      case None => default
    }
  }

  /** A possibly absent string as a JavaScript condition sees it: absent and "" are falsy. */
  predicate IsTruthy(s: Option<string>) {
    s.Some? && s.value != ""
  }

  // ---------------------------------------------------------------------------
  // Case

  function LowerChar(c: char): char {
    if 'A' <= c <= 'Z' then (c as int + 32) as char else c
  }

  function UpperChar(c: char): char {
    if 'a' <= c <= 'z' then (c as int - 32) as char else c
  }

  /** `s.toLowerCase()`, restricted to the ASCII letters. */
  function ToLower(s: string): (r: string)
    ensures |r| == |s|
    ensures forall i :: 0 <= i < |s| ==> r[i] == LowerChar(s[i])
  {
    seq(|s|, i requires 0 <= i < |s| => LowerChar(s[i]))
  }

  /** `t` has no upper-case ASCII letter. */
  predicate IsLowerCase(t: string) {
    forall i :: 0 <= i < |t| ==> LowerChar(t[i]) == t[i]
  }

  /** A lower-cased string has no upper-case letter left. */
  lemma ToLowerIsLowerCase(s: string)
    ensures IsLowerCase(ToLower(s))
  {
  }

  /** `s` spells `t` with any of its letters possibly in upper case. */
  predicate IsCaseVariant(s: string, t: string) {
    |s| == |t| && forall i :: 0 <= i < |s| ==> s[i] == t[i] || s[i] == UpperChar(t[i])
  }

  /**
   * Comparing `s.toLowerCase()` with a lower-case name is a case-insensitive
   * comparison: it holds exactly for the case variants of that name.
   */
  lemma ToLowerMatchesExactlyCaseVariants(s: string, t: string)
    requires IsLowerCase(t)
    ensures ToLower(s) == t <==> IsCaseVariant(s, t)
  {
    if ToLower(s) == t {
      forall i | 0 <= i < |s| ensures s[i] == t[i] || s[i] == UpperChar(t[i]) {
        assert LowerChar(s[i]) == t[i];
      }
    }
    if IsCaseVariant(s, t) {
      forall i | 0 <= i < |s| ensures ToLower(s)[i] == t[i] {
        assert LowerChar(t[i]) == t[i];
      }
    }
  }

  // ---------------------------------------------------------------------------
  // Substrings

  /** `s.includes(sub)` */
  predicate Includes(s: string, sub: string) {
    |sub| <= |s| && (s[..|sub|] == sub || Includes(s[1..], sub))
  }

  /** Every string that has `sub` somewhere inside includes it. */
  lemma {:induction false} IncludesInner(pre: string, sub: string, post: string)
    ensures Includes(pre + sub + post, sub)
  {
    var s := pre + sub + post;
    if pre == [] {
      assert s[..|sub|] == sub;
    } else {
      assert s[1..] == pre[1..] + sub + post;
      IncludesInner(pre[1..], sub, post);
    }
  }

  /** A string includes only what it has somewhere inside. */
  lemma {:induction false} IncludesHasWitness(s: string, sub: string)
    requires Includes(s, sub)
    ensures exists i :: 0 <= i <= |s| - |sub| && s[i..][..|sub|] == sub
  {
    if s[..|sub|] == sub {
      assert s[0..][..|sub|] == sub;
    } else {
      IncludesHasWitness(s[1..], sub);
      var i :| 0 <= i <= |s| - 1 - |sub| && s[1..][i..][..|sub|] == sub;
      assert s[i + 1..] == s[1..][i..];
    }
  }

  // ---------------------------------------------------------------------------
  // parseInt(s, 10)

  /** The characters ECMAScript's WhiteSpace and LineTerminator productions accept. */
  predicate IsJsSpace(c: char) {
    var n := c as int;
    n == 0x09 || n == 0x0A || n == 0x0B || n == 0x0C || n == 0x0D || n == 0x20
    || n == 0xA0 || n == 0x1680 || (0x2000 <= n <= 0x200A) || n == 0x2028 || n == 0x2029
    || n == 0x202F || n == 0x205F || n == 0x3000 || n == 0xFEFF
  }

  predicate IsDigit(c: char) {
    '0' <= c <= '9'
  }

  predicate AllDigits(s: string) {
    forall i :: 0 <= i < |s| ==> IsDigit(s[i])
  }

  function TrimStart(s: string): string {
    if s != [] && IsJsSpace(s[0]) then TrimStart(s[1..]) else s
  }

  /** The longest prefix of decimal digits. */
  function DigitPrefix(s: string): (d: string)
    ensures AllDigits(d) && |d| <= |s| && d == s[..|d|]
  {
    if s != [] && IsDigit(s[0]) then [s[0]] + DigitPrefix(s[1..]) else []
  }

  function DigitValue(c: char): nat
    requires IsDigit(c)
  {
    c as int - '0' as int
  }

  function DigitChar(k: nat): (c: char)
    requires k < 10
    ensures IsDigit(c) && DigitValue(c) == k
  {
    ('0' as int + k) as char
  }

  /** The number a string of decimal digits denotes. */
  function DecimalValue(d: string): nat
    requires AllDigits(d)
  {
    if d == [] then 0 else DecimalValue(d[..|d| - 1]) * 10 + DigitValue(d[|d| - 1])
  }

  /** The shortest decimal spelling of `n` (`String(n)` of a non-negative integer). */
  function NatToDecimal(n: nat): (d: string)
    ensures |d| > 0 && AllDigits(d)
  {
    if n < 10 then [DigitChar(n)] else NatToDecimal(n / 10) + [DigitChar(n % 10)]
  }

  /**
   * `parseInt(s, 10)`: skip leading white space, take an optional sign, then the
   * longest run of decimal digits; `None` stands for `NaN` (no digit at all).
   */
  function ParseInt10(s: string): Option<int> {
    var t := TrimStart(s);
    var negative := t != [] && t[0] == '-';
    var unsigned := if t != [] && (t[0] == '-' || t[0] == '+') then t[1..] else t;
    var d := DigitPrefix(unsigned);
    if d == [] then None
    else if negative then Some(-(DecimalValue(d) as int))
    else Some(DecimalValue(d))
  }

  /** `parseInt(x, 10)` where `x` may be `undefined` (which parses to `NaN`). */
  function ParseIntOpt(s: Option<string>): Option<int> {
    match s
    case None => None
    case Some(v) => ParseInt10(v)
  }

  lemma {:induction false} DecimalValueOfNatToDecimal(n: nat)
    ensures DecimalValue(NatToDecimal(n)) == n
  {
    var d := NatToDecimal(n);
    if n >= 10 {
      DecimalValueOfNatToDecimal(n / 10);
      assert d[..|d| - 1] == NatToDecimal(n / 10);
    }
  }

  lemma {:induction false} DigitPrefixOfDigits(d: string, rest: string)
    requires AllDigits(d)
    requires rest == [] || !IsDigit(rest[0])
    ensures DigitPrefix(d + rest) == d
  {
    if d != [] {
      assert (d + rest)[1..] == d[1..] + rest;
      DigitPrefixOfDigits(d[1..], rest);
    } else {
      assert d + rest == rest;
    }
  }

  /**
   * `parseInt` reads back the decimal spelling of every natural number, and
   * stops at the first character that is not a digit.
   */
  lemma ParseIntOfDecimal(n: nat, rest: string)
    requires rest == [] || !IsDigit(rest[0])
    ensures ParseInt10(NatToDecimal(n) + rest) == Some(n)
  {
    var d := NatToDecimal(n);
    assert TrimStart(d + rest) == d + rest by {
      assert (d + rest)[0] == d[0];
    }
    DigitPrefixOfDigits(d, rest);
    DecimalValueOfNatToDecimal(n);
  }

  /** A leading minus sign negates what follows it. */
  lemma ParseIntOfNegativeDecimal(n: nat)
    ensures ParseInt10("-" + NatToDecimal(n)) == Some(-(n as int))
  {
    var d := NatToDecimal(n);
    assert ("-" + d)[1..] == d;
    DigitPrefixOfDigits(d, []);
    assert d + [] == d;
    DecimalValueOfNatToDecimal(n);
  }

  /** Trimming only drops characters from the front: the result is a suffix. */
  lemma {:induction false} TrimStartIsSuffix(s: string)
    ensures |TrimStart(s)| <= |s| && TrimStart(s) == s[|s| - |TrimStart(s)|..]
  {
    if s != [] && IsJsSpace(s[0]) {
      TrimStartIsSuffix(s[1..]);
      assert s[1..][|s| - 1 - |TrimStart(s[1..])|..] == s[|s| - |TrimStart(s)|..];
    }
  }

  /** A string without a single decimal digit parses to `NaN`, whatever else it holds. */
  lemma ParseIntWithoutDigits(s: string)
    requires forall i :: 0 <= i < |s| ==> !IsDigit(s[i])
    ensures ParseInt10(s) == None
  {
    var t := TrimStart(s);
    TrimStartIsSuffix(s);
    var unsigned := if t != [] && (t[0] == '-' || t[0] == '+') then t[1..] else t;
    if unsigned != [] {
      assert unsigned[0] == s[|s| - |unsigned|];
    }
  }

  /** Leading white space is skipped. */
  lemma {:induction false} ParseIntSkipsLeadingSpace(sp: string, s: string)
    requires forall i :: 0 <= i < |sp| ==> IsJsSpace(sp[i])
    ensures ParseInt10(sp + s) == ParseInt10(s)
  {
    if sp != [] {
      assert (sp + s)[1..] == sp[1..] + s;
      ParseIntSkipsLeadingSpace(sp[1..], s);
      assert TrimStart(sp + s) == TrimStart(sp[1..] + s);
    } else {
      assert sp + s == s;
    }
  }
}
