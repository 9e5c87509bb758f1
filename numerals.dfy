/**
 * `Number.prototype.toString(radix)` on non-negative integers: the hash is
 * printed with radix 16, HTTP status codes and timestamps with radix 10.
 */
module Numerals {
  import opened JsText

  /** The digits of `n` in base `radix`, most significant first, with no leading zero. */
  function Digits(n: nat, radix: nat): (ds: seq<nat>)
    requires 2 <= radix
    ensures |ds| >= 1
    ensures forall i :: 0 <= i < |ds| ==> ds[i] < radix
    ensures |ds| > 1 ==> ds[0] != 0
    decreases n
  {
    if n < radix then [n]
    else
      DivFacts(n, radix);
      Digits(n / radix, radix) + [n % radix]
  }

  /** What `n / radix` and `n % radix` are when `n` has more than one digit. */
  lemma DivFacts(n: nat, radix: nat)
    requires 2 <= radix <= n
    ensures 1 <= n / radix < n
    ensures n % radix < radix
  {
  }

  /** The number a digit sequence denotes (Horner's rule). */
  function Value(ds: seq<nat>, radix: nat): nat {
    if ds == [] then 0 else Value(ds[..|ds| - 1], radix) * radix + ds[|ds| - 1]
  }

  function Pow(b: nat, k: nat): nat {
    if k == 0 then 1 else b * Pow(b, k - 1)
  }

  lemma ValueSnoc(ds: seq<nat>, d: nat, radix: nat)
    ensures Value(ds + [d], radix) == Value(ds, radix) * radix + d
  {
    assert (ds + [d])[..|ds|] == ds;
  }

  lemma DivMod(n: nat, radix: nat)
    requires 2 <= radix
    ensures (n / radix) * radix + n % radix == n
  {
  }

  /** Reading the digits back gives the number. */
  lemma {:induction false} ValueOfDigits(n: nat, radix: nat)
    requires 2 <= radix
    ensures Value(Digits(n, radix), radix) == n
  {
    if n >= radix {
      ValueOfDigits(n / radix, radix);
      ValueSnoc(Digits(n / radix, radix), n % radix, radix);
      DivMod(n, radix);
    } else {
      assert Value([n], radix) == n;
    }
  }

  /** If `n < radix^k` and `n >= radix`, then `n / radix < radix^(k-1)`. */
  lemma QuotientBound(n: nat, radix: nat, k: nat)
    requires 2 <= radix && 2 <= k && n < Pow(radix, k)
    ensures n / radix < Pow(radix, k - 1)
  {
    DivMod(n, radix);
    if n / radix >= Pow(radix, k - 1) {
      MulMonotone(radix, n / radix, Pow(radix, k - 1));
    }
  }

  lemma MulMonotone(a: nat, x: nat, y: nat)
    requires x >= y
    ensures x * a >= a * y
  {
  }

  /** A number below `radix^k` has at most `k` digits. */
  lemma {:induction false} DigitsLength(n: nat, radix: nat, k: nat)
    requires 2 <= radix && 1 <= k && n < Pow(radix, k)
    ensures |Digits(n, radix)| <= k
    decreases k
  {
    if n < radix {
      DigitsSingle(n, radix);
    } else {
      PowOne(radix);
      QuotientBound(n, radix, k);
      DigitsStep(n, radix);
      DigitsLength(n / radix, radix, k - 1);
    }
  }

  lemma DigitsSingle(n: nat, radix: nat)
    requires 2 <= radix && n < radix
    ensures |Digits(n, radix)| == 1
  {
  }

  lemma PowOne(b: nat)
    ensures Pow(b, 1) == b
  {
  }

  lemma DigitsStep(n: nat, radix: nat)
    requires 2 <= radix <= n
    ensures |Digits(n, radix)| == |Digits(n / radix, radix)| + 1
  {
  }

  /** The character a digit is printed as: `0`-`9`, then lower-case `a`-`z`. */
  function DigitUnit(d: nat): (u: CodeUnit)
    requires d < 36
    ensures Underscore != u
  {
    if d < 10 then 0x30 + d else 0x61 + (d - 10)
  }

  /** The digit a printed character stands for; undoes DigitUnit. */
  function DigitValue(u: CodeUnit): nat {
    if 0x30 <= u <= 0x39 then u - 0x30
    else if 0x61 <= u <= 0x7A then u - 0x61 + 10
    else 0
  }

  /**
   * `n.toString(radix)` for a non-negative integer `n`: one printed digit of
   * this radix per digit of `n`.
   */
  function ToStringRadix(n: nat, radix: nat): (s: JsString)
    requires 2 <= radix <= 36
    ensures |s| == |Digits(n, radix)|
    ensures forall i :: 0 <= i < |s| ==> DigitValue(s[i]) < radix && DigitUnit(DigitValue(s[i])) == s[i]
    ensures |s| > 1 ==> s[0] != 0x30
    ensures Underscore !in s
  {
    var ds := Digits(n, radix);
    seq(|ds|, i requires 0 <= i < |ds| => DigitUnit(ds[i]))
  }

  /** `parseInt(s, radix)` on a string of digits. */
  function ParseRadix(s: JsString, radix: nat): nat {
    if s == [] then 0 else ParseRadix(s[..|s| - 1], radix) * radix + DigitValue(s[|s| - 1])
  }

  lemma {:induction false} ParseRender(ds: seq<nat>, radix: nat)
    requires forall i :: 0 <= i < |ds| ==> ds[i] < 36
    ensures ParseRadix(seq(|ds|, i requires 0 <= i < |ds| => DigitUnit(ds[i])), radix) == Value(ds, radix)
  {
    if ds != [] {
      var s := seq(|ds|, i requires 0 <= i < |ds| => DigitUnit(ds[i]));
      var init := ds[..|ds| - 1];
      assert s[..|s| - 1] == seq(|init|, i requires 0 <= i < |init| => DigitUnit(init[i]));
      ParseRender(init, radix);
    }
  }

  /** Printing then parsing gives the number back, so printing is injective. */
  lemma ParseToString(n: nat, radix: nat)
    requires 2 <= radix <= 36
    ensures ParseRadix(ToStringRadix(n, radix), radix) == n
  {
    ParseRender(Digits(n, radix), radix);
    ValueOfDigits(n, radix);
  }

  lemma ToStringInjective(m: nat, n: nat, radix: nat)
    requires 2 <= radix <= 36
    requires ToStringRadix(m, radix) == ToStringRadix(n, radix)
    ensures m == n
  {
    ParseToString(m, radix);
    ParseToString(n, radix);
  }

  predicate IsLowerHexUnit(u: CodeUnit) {
    (0x30 <= u <= 0x39) || (0x61 <= u <= 0x66)
  }

  predicate IsDecimalUnit(u: CodeUnit) {
    0x30 <= u <= 0x39
  }

  /** `h.toString(16)`: lower-case hex digits without a leading zero that parse back to `n`. */
  function Hex(n: nat): (s: JsString)
    ensures |s| >= 1
    ensures forall i :: 0 <= i < |s| ==> IsLowerHexUnit(s[i])
    ensures |s| > 1 ==> s[0] != 0x30
    ensures ParseRadix(s, 16) == n
  {
    ParseToString(n, 16);
    ToStringRadix(n, 16)
  }

  /**
   * `n.toString()` (equivalently, a template-literal substitution of `n`):
   * decimal digits without a leading zero that parse back to `n`.
   */
  function Decimal(n: nat): (s: JsString)
    ensures |s| >= 1
    ensures forall i :: 0 <= i < |s| ==> IsDecimalUnit(s[i])
    ensures |s| > 1 ==> s[0] != 0x30
    ensures ParseRadix(s, 10) == n
  {
    ParseToString(n, 10);
    ToStringRadix(n, 10)
  }

  /**
   * A 32-bit value prints as one to eight lower-case hexadecimal digits,
   * without a leading zero unless the value is zero, which prints as "0".
   */
  lemma HexOf32Bits(n: nat)
    requires n < 0x1_0000_0000
    ensures 1 <= |Hex(n)| <= 8
    ensures forall i :: 0 <= i < |Hex(n)| ==> IsLowerHexUnit(Hex(n)[i])
    ensures |Hex(n)| > 1 ==> Hex(n)[0] != 0x30
    ensures n == 0 <==> Hex(n) == [0x30]
  {
    assert Pow(16, 8) == 0x1_0000_0000;
    DigitsLength(n, 16, 8);
    if Hex(n) == [0x30] {
      ParseToString(n, 16);
    }
  }
}
