/**
 * String helpers that the TypeScript sources take from the language runtime:
 * ASCII case folding (`toLowerCase` on hexadecimal addresses), decimal
 * rendering of non-negative integers (template strings such as `log-${id}`)
 * and `BigInt(string)`.
 */
module Text {
  import opened Wrappers

  function Lower(c: char): (r: char)
    ensures 'A' <= c <= 'Z' ==> 'a' <= r <= 'z' && r as int - 'a' as int == c as int - 'A' as int
    ensures !('A' <= c <= 'Z') ==> r == c
  {
    if 'A' <= c <= 'Z' then (c as int - 'A' as int + 'a' as int) as char else c
  }

  function ToLower(s: string): (r: string)
    ensures |r| == |s|
    ensures forall i :: 0 <= i < |s| ==> r[i] == Lower(s[i])
  {
    if s == [] then [] else [Lower(s[0])] + ToLower(s[1..])
  }

  /** `a.toLowerCase() === b.toLowerCase()` for the ASCII text of addresses. */
  predicate EqualsIgnoreCase(a: string, b: string) {
    ToLower(a) == ToLower(b)
  }

  lemma EqualsIgnoreCaseIsEquivalence(a: string, b: string, c: string)
    ensures EqualsIgnoreCase(a, a)
    ensures EqualsIgnoreCase(a, b) ==> EqualsIgnoreCase(b, a)
    ensures EqualsIgnoreCase(a, b) && EqualsIgnoreCase(b, c) ==> EqualsIgnoreCase(a, c)
  {
  }

  predicate IsDigit(c: char) {
    '0' <= c <= '9'
  }

  function DigitChar(d: int): (c: char)
    requires 0 <= d < 10
    ensures IsDigit(c) && c as int - '0' as int == d
  {
    ('0' as int + d) as char
  }

  /** A non-negative integer in decimal notation without leading zeros. */
  function NatToDecimal(n: nat): (s: string)
    ensures |s| > 0
    ensures forall i :: 0 <= i < |s| ==> IsDigit(s[i])
    ensures |s| > 1 ==> s[0] != '0'
    decreases n
  {
    if n < 10 then [DigitChar(n)] else NatToDecimal(n / 10) + [DigitChar(n % 10)]
  }

  /** The value of a non-empty run of decimal digits. */
  function DigitsValue(s: string): (v: nat)
    requires forall i :: 0 <= i < |s| ==> IsDigit(s[i])
    decreases |s|
  {
    if s == [] then 0
    else
      assert IsDigit(s[|s| - 1]);
      DigitsValue(s[..|s| - 1]) * 10 + (s[|s| - 1] as int - '0' as int)
  }

  predicate IsHexDigit(c: char) {
    IsDigit(c) || 'a' <= c <= 'f' || 'A' <= c <= 'F'
  }

  /** Every character is a hexadecimal digit. */
  predicate AllHex(s: string) {
    s == [] || (IsHexDigit(s[0]) && AllHex(s[1..]))
  }

  predicate AllDigits(s: string) {
    forall i :: 0 <= i < |s| ==> IsDigit(s[i])
  }

  /** The characters `BigInt` trims: ECMAScript's WhiteSpace and LineTerminator code points. */
  predicate IsJsSpace(c: char) {
    var k := c as int;
    || k == 0x09 || k == 0x0A || k == 0x0B || k == 0x0C || k == 0x0D || k == 0x20 || k == 0xA0
    || k == 0x1680 || (0x2000 <= k <= 0x200A) || k == 0x2028 || k == 0x2029 || k == 0x202F
    || k == 0x205F || k == 0x3000 || k == 0xFEFF
  }

  predicate AllSpace(s: string) {
    forall i :: 0 <= i < |s| ==> IsJsSpace(s[i])
  }

  /** `s` without its leading white space. */
  function TrimStart(s: string): string {
    if s != [] && IsJsSpace(s[0]) then TrimStart(s[1..]) else s
  }

  /** `s` without its trailing white space. */
  function TrimEnd(s: string): string {
    if s != [] && IsJsSpace(s[|s| - 1]) then TrimEnd(s[..|s| - 1]) else s
  }

  /** `String.prototype.trim`, the first step of `StringToBigInt`. */
  function Trim(s: string): string {
    TrimEnd(TrimStart(s))
  }

  /** The value of a hexadecimal digit, or -1 for any other character. */
  function DigitValue(c: char): (v: int)
    ensures -1 <= v < 16
    ensures IsDigit(c) ==> v == c as int - '0' as int
  {
    if IsDigit(c) then c as int - '0' as int
    else if 'a' <= c <= 'f' then c as int - 'a' as int + 10
    else if 'A' <= c <= 'F' then c as int - 'A' as int + 10
    else -1
  }

  predicate AllRadix(s: string, base: nat) {
    forall i :: 0 <= i < |s| ==> 0 <= DigitValue(s[i]) < base
  }

  /** The value of a run of digits in `base`. */
  function RadixValue(s: string, base: nat): nat
    requires AllRadix(s, base)
    decreases |s|
  {
    if s == [] then 0
    else
      var init := s[..|s| - 1];
      assert AllRadix(init, base) by {
        forall i | 0 <= i < |init| ensures 0 <= DigitValue(init[i]) < base {
          assert init[i] == s[i];
        }
      }
      RadixValue(init, base) * base + DigitValue(s[|s| - 1])
  }

  /** The base a `0x`, `0o` or `0b` prefix (in either case) names, or 0 when there is none. */
  function PrefixBase(t: string): (base: nat)
    ensures base == 0 || base == 2 || base == 8 || base == 16
    ensures base != 0 ==> |t| >= 2 && t[0] == '0'
  {
    if |t| < 2 || t[0] != '0' then 0
    else if t[1] == 'x' || t[1] == 'X' then 16
    else if t[1] == 'o' || t[1] == 'O' then 8
    else if t[1] == 'b' || t[1] == 'B' then 2
    else 0
  }

  /** A decimal literal: digits, optionally after one sign. */
  predicate DecimalLiteral(t: string) {
    || (t != [] && AllDigits(t))
    || (|t| > 1 && (t[0] == '-' || t[0] == '+') && AllDigits(t[1..]))
  }

  /** A non-decimal literal: a base prefix and at least one digit of that base, with no sign. */
  predicate PrefixedLiteral(t: string) {
    PrefixBase(t) != 0 && |t| > 2 && AllRadix(t[2..], PrefixBase(t))
  }

  /** `StringIntegerLiteral` on trimmed, non-blank text. */
  function ParseLiteral(t: string): (r: Option<int>)
    ensures r.Some? <==> DecimalLiteral(t) || PrefixedLiteral(t)
    ensures t != "" && AllDigits(t) ==> r == Some(DigitsValue(t))
    ensures PrefixedLiteral(t) ==> r == Some(RadixValue(t[2..], PrefixBase(t)))
    ensures r.Some? && r.value < 0 ==> t[0] == '-'
  {
    if PrefixBase(t) != 0 then
      assert !IsDigit(t[1]) && t[0] != '-' && t[0] != '+';
      if |t| > 2 && AllRadix(t[2..], PrefixBase(t)) then Some(RadixValue(t[2..], PrefixBase(t))) else None
    else if t != [] && AllDigits(t) then Some(DigitsValue(t))
    else if |t| > 1 && t[0] == '-' && AllDigits(t[1..]) then Some(0 - DigitsValue(t[1..]) as int)
    else if |t| > 1 && t[0] == '+' && AllDigits(t[1..]) then Some(DigitsValue(t[1..]))
    else None
  }

  /**
   * JavaScript's `BigInt(string)` (`StringToBigInt`): surrounding white space
   * and line terminators are trimmed; blank text is `0n`; a decimal literal
   * may carry one sign; `0x`, `0o` and `0b` literals may not; anything else
   * (a fraction, an exponent, a separator, a bare prefix) throws a
   * `SyntaxError`, here `None`.
   */
  function ParseBigInt(s: string): (r: Option<int>)
    ensures Trim(s) == "" ==> r == Some(0)
    ensures Trim(s) != "" ==> r == ParseLiteral(Trim(s))
  {
    var t := Trim(s);
    if t == [] then Some(0) else ParseLiteral(t)
  }

  lemma {:induction false} DigitsOfNatToDecimal(n: nat)
    ensures AllDigits(NatToDecimal(n)) && DigitsValue(NatToDecimal(n)) == n
    decreases n
  {
    var s := NatToDecimal(n);
    if n >= 10 {
      DigitsOfNatToDecimal(n / 10);
      assert s[..|s| - 1] == NatToDecimal(n / 10);
    }
  }

  lemma {:induction false} TrimStartSpaces(pre: string, x: string)
    requires AllSpace(pre)
    ensures TrimStart(pre + x) == TrimStart(x)
    decreases |pre|
  {
    if pre != [] {
      var rest := pre[1..];
      assert (pre + x)[0] == pre[0] && (pre + x)[1..] == rest + x;
      assert AllSpace(rest) by {
        forall i | 0 <= i < |rest| ensures IsJsSpace(rest[i]) { assert rest[i] == pre[i + 1]; }
      }
      assert IsJsSpace(pre[0]);
      TrimStartSpaces(rest, x);
    } else {
      assert pre + x == x;
    }
  }

  lemma {:induction false} TrimEndSpaces(x: string, post: string)
    requires AllSpace(post)
    ensures TrimEnd(x + post) == TrimEnd(x)
    decreases |post|
  {
    if post != [] {
      var y := x + post;
      var init := post[..|post| - 1];
      assert y[|y| - 1] == post[|post| - 1] && y[..|y| - 1] == x + init;
      assert AllSpace(init) by {
        forall i | 0 <= i < |init| ensures IsJsSpace(init[i]) { assert init[i] == post[i]; }
      }
      assert IsJsSpace(post[|post| - 1]);
      TrimEndSpaces(x, init);
    } else {
      assert x + post == x;
    }
  }

  lemma {:induction false} TrimAppendSpaces(x: string, post: string)
    requires AllSpace(post)
    ensures TrimEnd(TrimStart(x + post)) == TrimEnd(TrimStart(x))
    decreases |x|
  {
    if x == [] {
      assert x + post == post + [];
      TrimStartSpaces(post, []);
    } else if IsJsSpace(x[0]) {
      assert (x + post)[0] == x[0] && (x + post)[1..] == x[1..] + post;
      TrimAppendSpaces(x[1..], post);
    } else {
      assert (x + post)[0] == x[0];
      TrimEndSpaces(x, post);
    }
  }

  /** Surrounding white space and line terminators never change what `BigInt` reads. */
  lemma ParseBigIntIgnoresPadding(pre: string, s: string, post: string)
    requires AllSpace(pre) && AllSpace(post)
    ensures ParseBigInt(pre + s + post) == ParseBigInt(s)
  {
    assert pre + s + post == pre + (s + post);
    TrimStartSpaces(pre, s + post);
    TrimAppendSpaces(s, post);
  }

  /** Padded digits and blank text are accepted. */
  lemma PaddedAndBlankAccepted()
    ensures ParseBigInt(" 5") == Some(5)
    ensures ParseBigInt("  ") == Some(0)
  {
    ParseBigIntIgnoresPadding(" ", "5", "");
    assert " 5" == " " + "5" + "";
    ParseDigits("5");
    assert TrimStart("  ") == [];
  }

  /** A hexadecimal literal is read in base 16. */
  lemma HexLiteralAccepted()
    ensures ParseBigInt("0x10") == Some(16)
  {
    var t := "0x10";
    assert TrimStart(t) == t && TrimEnd(t) == t;
    assert PrefixBase(t) == 16;
    assert t[2..] == "10";
    assert AllRadix("10", 16);
    assert RadixValue("10", 16) == 16 by {
      assert "10"[..1] == "1";
      assert RadixValue("1", 16) == 1 by { assert "1"[..0] == ""; }
    }
  }

  /** A sign before a prefix, or a prefix without digits, is refused. */
  lemma SignedOrBarePrefixRefused()
    ensures ParseBigInt("-0x10") == None
    ensures ParseBigInt("0x") == None
  {
    var t := "-0x10";
    assert TrimStart(t) == t && TrimEnd(t) == t;
    assert PrefixBase(t) == 0;
    assert !AllDigits(t) by { assert !IsDigit(t[0]); }
    assert !AllDigits(t[1..]) by { assert t[1..][1] == 'x'; }
    var u := "0x";
    assert TrimStart(u) == u && TrimEnd(u) == u;
    assert PrefixBase(u) == 16;
  }

  /** Digits without a leading zero (a lone `0` included) are parsed as decimal digits. */
  lemma ParseDigits(s: string)
    requires s != [] && AllDigits(s) && (|s| > 1 ==> s[0] != '0')
    ensures ParseBigInt(s) == Some(DigitsValue(s))
  {
    assert IsDigit(s[0]) && IsDigit(s[|s| - 1]);
    assert TrimStart(s) == s;
    assert TrimEnd(s) == s;
    assert PrefixBase(s) == 0;
  }

  /** `BigInt(String(n))` gives back `n`: the decimal rendering parses to its value. */
  lemma ParseNatToDecimal(n: nat)
    ensures ParseBigInt(NatToDecimal(n)) == Some(n)
  {
    DigitsOfNatToDecimal(n);
    ParseDigits(NatToDecimal(n));
  }

  lemma {:induction false} NatToDecimalInjective(m: nat, n: nat)
    ensures NatToDecimal(m) == NatToDecimal(n) ==> m == n
  {
    DigitsOfNatToDecimal(m);
    DigitsOfNatToDecimal(n);
  }

  /** `${n}` for an integer. */
  function IntToDecimal(n: int): (s: string)
    ensures n >= 0 ==> s == NatToDecimal(n)
    ensures n < 0 ==> s == "-" + NatToDecimal(-n)
  {
    if n >= 0 then NatToDecimal(n) else "-" + NatToDecimal(-n)
  }

  /** Distinct integers have distinct decimal renderings. */
  lemma IntToDecimalInjective(m: int, n: int)
    ensures IntToDecimal(m) == IntToDecimal(n) ==> m == n
  {
    if IntToDecimal(m) == IntToDecimal(n) {
      if m >= 0 && n >= 0 {
        NatToDecimalInjective(m, n);
      } else if m < 0 && n < 0 {
        assert NatToDecimal(-m) == IntToDecimal(m)[1..] == IntToDecimal(n)[1..] == NatToDecimal(-n);
        NatToDecimalInjective(-m, -n);
      }
    }
  }

  /** Lexicographic order of strings by character code. */
  predicate StrLt(a: string, b: string) {
    if a == [] then b != []
    else b != [] && (a[0] < b[0] || (a[0] == b[0] && StrLt(a[1..], b[1..])))
  }

  /** `StrLt` is a strict total order. */
  lemma {:induction false} StrLtIsStrictTotal(a: string, b: string, c: string)
    ensures !StrLt(a, a)
    ensures StrLt(a, b) ==> !StrLt(b, a)
    ensures StrLt(a, b) && StrLt(b, c) ==> StrLt(a, c)
    ensures a != b ==> StrLt(a, b) || StrLt(b, a)
  {
    if a != [] && b != [] && c != [] {
      StrLtIsStrictTotal(a[1..], b[1..], c[1..]);
      assert a != b && a[0] == b[0] ==> a[1..] != b[1..] by {
        if a[0] == b[0] && a[1..] == b[1..] { assert a == [a[0]] + a[1..]; assert b == [b[0]] + b[1..]; }
      }
    } else if a != [] && b != [] {
      StrLtIsStrictTotal(a[1..], b[1..], b[1..]);
      assert a != b && a[0] == b[0] ==> a[1..] != b[1..] by {
        if a[0] == b[0] && a[1..] == b[1..] { assert a == [a[0]] + a[1..]; assert b == [b[0]] + b[1..]; }
      }
    } else if a != [] {
      StrLtIsStrictTotal(a[1..], a[1..], a[1..]);
    }
  }
}
