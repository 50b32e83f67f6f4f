/** Integer literals: their value, and the digit counting that decides whether they fit. */
module Literals {
  import opened Naturals
  import opened Options
  import opened Tokens

  predicate IsDigitOf(base: nat, c: char) {
    match base
    case 8 => '0' <= c <= '7'
    case 10 => '0' <= c <= '9'
    case 16 => '0' <= c <= '9' || 'a' <= c <= 'f' || 'A' <= c <= 'F'
    case _ => false
  }

  predicate IsBase(base: nat) {
    base == 8 || base == 10 || base == 16
  }

  function DigitValue(base: nat, c: char): (v: nat)
    requires IsBase(base) && IsDigitOf(base, c)
    ensures v < base
    ensures v == 0 <==> c == '0'
  {
    if '0' <= c <= '9' then c as int - '0' as int
    else if 'a' <= c <= 'f' then c as int - 'a' as int + 10
    else c as int - 'A' as int + 10
  }

  predicate AllDigits(base: nat, s: string) {
    forall i :: 0 <= i < |s| ==> IsDigitOf(base, s[i])
  }

  /** The number a digit string denotes, of any length and with any number of leading zeros. */
  function ValueOf(base: nat, s: string): (v: nat)
    requires IsBase(base) && AllDigits(base, s)
  {
    if s == "" then 0
    else ValueOf(base, s[..|s| - 1]) * base + DigitValue(base, s[|s| - 1])
  }

  function Pow(b: nat, e: nat): (p: nat)
    ensures b > 0 ==> p > 0
  {
    if e == 0 then 1 else b * Pow(b, e - 1)
  }

  lemma {:induction false} PowAdd(b: nat, x: nat, y: nat)
    ensures Pow(b, x + y) == Pow(b, x) * Pow(b, y)
  {
    if x > 0 {
      PowAdd(b, x - 1, y);
      assert Pow(b, x + y) == b * Pow(b, x - 1 + y);
      MulAssoc(b, Pow(b, x - 1), Pow(b, y));
    }
  }

  lemma {:induction false} ValueBelow(base: nat, s: string)
    requires IsBase(base) && AllDigits(base, s)
    ensures ValueOf(base, s) < Pow(base, |s|)
  {
    if s != "" {
      ValueBelow(base, s[..|s| - 1]);
      MulMono(ValueOf(base, s[..|s| - 1]) + 1, Pow(base, |s| - 1), base);
    }
  }

  /** One more digit behind a number that lies between multiples of a power. */
  lemma OneMoreDigit(low: nat, high: nat, pow: nat, base: nat, v: nat, x: nat)
    requires low * pow <= v < high * pow && x < base
    ensures low * (base * pow) <= v * base + x < high * (base * pow)
  {
    MulAssoc(low, pow, base);
    MulAssoc(high, pow, base);
    MulMono(low * pow, v, base);
    MulMono(v + 1, high * pow, base);
  }

  /** A string denotes at least its leading digit times the power of its length, and less than one
      more of them. */
  lemma {:induction false} LeadingDigit(base: nat, s: string)
    requires IsBase(base) && AllDigits(base, s) && s != ""
    ensures var d := DigitValue(base, s[0]);
            d * Pow(base, |s| - 1) <= ValueOf(base, s) < (d + 1) * Pow(base, |s| - 1)
  {
    hide IsBase, DigitValue;
    if |s| > 1 {
      var front := s[..|s| - 1];
      LeadingDigit(base, front);
      var d := DigitValue(base, s[0]);
      OneMoreDigit(d, d + 1, Pow(base, |s| - 2), base, ValueOf(base, front), DigitValue(base, s[|s| - 1]));
    } else {
      assert s[..0] == "";
    }
  }

  lemma FrontSlice(s: string, i: nat)
    requires i < |s|
    ensures s[i..] != "" && s[i..][..|s[i..]| - 1] == s[..|s| - 1][i..] && s[i..][|s[i..]| - 1] == s[|s| - 1]
  {
  }

  /** Leading zeros do not count. */
  lemma {:induction false} SkipZeros(base: nat, s: string, i: nat)
    requires IsBase(base) && AllDigits(base, s) && i <= |s|
    requires forall k :: 0 <= k < i ==> s[k] == '0'
    ensures AllDigits(base, s[i..]) && ValueOf(base, s[i..]) == ValueOf(base, s)
  {
    if i < |s| {
      SkipZeros(base, s[..|s| - 1], i);
      FrontSlice(s, i);
    } else if i > 0 {
      var front := s[..|s| - 1];
      SkipZeros(base, front, i - 1);
      assert front[i - 1..] == "";
    }
  }

  const MAX_UINT64: nat := 0xFFFF_FFFF_FFFF_FFFF

  lemma Powers()
    ensures Pow(16, 16) == MAX_UINT64 + 1
    ensures Pow(8, 21) == MAX_ABS_INTEGER
    ensures Pow(8, 22) == 8 * MAX_ABS_INTEGER
  {
    assert Pow(16, 4) == 0x1_0000 by {
      assert Pow(16, 2) == 256;
    }
    PowAdd(16, 4, 4);
    PowAdd(16, 8, 8);
    assert Pow(8, 3) == 512 by {
      assert Pow(8, 1) == 8 && Pow(8, 2) == 64;
    }
    PowAdd(8, 3, 3);
    PowAdd(8, 6, 6);
    PowAdd(8, 12, 6);
    PowAdd(8, 18, 3);
  }

  // ---- The scanner's literal actions ---------------------------------------------

  datatype Literal = Literal(n: nat) | OutOfRange

  /** What the scanner is meant to deliver for the digits of a literal. */
  function Meant(base: nat, digits: string): (r: Literal)
    requires IsBase(base) && AllDigits(base, digits)
  {
    if ValueOf(base, digits) <= MAX_ABS_INTEGER then Literal(ValueOf(base, digits)) else OutOfRange
  }

  /** `sscanf` with %lx or %lo, which only denotes the number if it fits 64 bits. */
  function StringToUnsigned(base: nat, digits: string): (v: nat)
    requires IsBase(base) && AllDigits(base, digits) && ValueOf(base, digits) <= MAX_UINT64
  {
    ValueOf(base, digits)
  }

  predicate IsHexText(text: string) {
    |text| >= 3 && text[0] == '0' && (text[1] == 'x' || text[1] == 'X') && AllDigits(16, text[2..])
  }

  predicate IsOctText(text: string) {
    |text| >= 2 && text[0] == '0' && AllDigits(8, text[1..])
  }

  /** The digits from position `i` on, after nothing but zeros, carry the whole value. */
  lemma FromPosition(base: nat, text: string, start: nat, i: nat)
    requires IsBase(base) && start <= i <= |text| && AllDigits(base, text[start..])
    requires forall k :: start <= k < i ==> text[k] == '0'
    ensures AllDigits(base, text[i..]) && ValueOf(base, text[i..]) == ValueOf(base, text[start..])
  {
    SkipZeros(base, text[start..], i - start);
    assert text[start..][i - start..] == text[i..];
  }

  lemma {:induction false} PowMono(b: nat, x: nat, y: nat)
    requires b > 0 && x <= y
    ensures Pow(b, x) <= Pow(b, y)
    decreases y
  {
    if x < y {
      PowMono(b, x, y - 1);
      MulMono(1, b, Pow(b, y - 1));
    }
  }

  /** Seventeen significant hexadecimal digits never fit 64 bits, sixteen always do. */
  lemma HexCount(digits: string)
    requires AllDigits(16, digits)
    ensures |digits| <= 16 ==> ValueOf(16, digits) <= MAX_UINT64
    ensures |digits| > 16 && digits[0] != '0' ==> ValueOf(16, digits) > MAX_UINT64
  {
    Powers();
    ValueBelow(16, digits);
    if |digits| <= 16 {
      PowMono(16, |digits|, 16);
    } else if digits[0] != '0' {
      LeadingDigit(16, digits);
      PowMono(16, 16, |digits| - 1);
      MulMono(1, DigitValue(16, digits[0]), Pow(16, |digits| - 1));
    }
  }

  /** Twenty-two significant octal digits fit 64 bits exactly when the first of them is 1. */
  lemma OctCount(digits: string)
    requires AllDigits(8, digits)
    ensures |digits| <= 21 ==> ValueOf(8, digits) <= MAX_UINT64
    ensures |digits| == 22 && digits[0] != '0' ==> (ValueOf(8, digits) <= MAX_UINT64 <==> digits[0] == '1')
    ensures |digits| > 22 && digits[0] != '0' ==> ValueOf(8, digits) > MAX_UINT64
  {
    Powers();
    ValueBelow(8, digits);
    if |digits| <= 21 {
      PowMono(8, |digits|, 21);
    } else if digits[0] != '0' {
      LeadingDigit(8, digits);
      var d := DigitValue(8, digits[0]);
      if |digits| == 22 {
        assert d == 1 <==> digits[0] == '1';
        if d > 1 {
          MulMono(2, d, Pow(8, 21));
        }
      } else {
        PowMono(8, 22, |digits| - 1);
        MulMono(1, d, Pow(8, |digits| - 1));
      }
    }
  }

  method ScanHex(text: string) returns (r: Literal)
    requires IsHexText(text)
    ensures r == Meant(16, text[2..])
  {
    if |text| > 18 {
      var i := 2;
      while i < |text| && text[i] == '0'
        invariant 2 <= i <= |text|
        invariant forall k :: 2 <= k < i ==> text[k] == '0'
      {
        i := i + 1;
      }
      FromPosition(16, text, 2, i);
      HexCount(text[i..]);
      if |text| - i > 16 {
        return OutOfRange;
      }
    } else {
      HexCount(text[2..]);
    }
    var val := StringToUnsigned(16, text[2..]);
    if val > MAX_ABS_INTEGER {
      return OutOfRange;
    }
    return Literal(val);
  }

  method ScanOct(text: string) returns (r: Literal)
    requires IsOctText(text)
    ensures r == Meant(8, text[1..])
  {
    if |text| > 22 {
      var i := 1;
      while i < |text| && text[i] == '0'
        invariant 1 <= i <= |text|
        invariant forall k :: 1 <= k < i ==> text[k] == '0'
      {
        i := i + 1;
      }
      FromPosition(8, text, 1, i);
      OctCount(text[i..]);
      if |text| - i > 22 || (|text| - i == 22 && text[i] != '1') {
        return OutOfRange;
      }
    } else {
      OctCount(text[1..]);
    }
    var val := StringToUnsigned(8, text[1..]);
    if val > MAX_ABS_INTEGER {
      return OutOfRange;
    }
    return Literal(val);
  }

  /** A number is at least what its first digits denote. */
  lemma {:induction false} PrefixBelow(base: nat, s: string, i: nat)
    requires IsBase(base) && AllDigits(base, s) && i <= |s|
    ensures ValueOf(base, s[..i]) <= ValueOf(base, s)
  {
    if i < |s| {
      var front := s[..|s| - 1];
      PrefixBelow(base, front, i);
      assert front[..i] == s[..i];
      MulMono(1, base, ValueOf(base, front));
    } else {
      assert s[..i] == s;
    }
  }

  /** The conversion of a decimal string to 64 bits, digit by digit, which fails on overflow. */
  method ToUint64(digits: string) returns (r: Option<nat>)
    requires AllDigits(10, digits)
    ensures r == if ValueOf(10, digits) <= MAX_UINT64 then Some(ValueOf(10, digits)) else None
  {
    var val := 0;
    for i := 0 to |digits|
      invariant val == ValueOf(10, digits[..i]) <= MAX_UINT64
    {
      assert digits[..i + 1][..i] == digits[..i];
      PrefixBelow(10, digits, i + 1);
      var d := DigitValue(10, digits[i]);
      if val > (MAX_UINT64 - d) / 10 {
        return None;
      }
      val := val * 10 + d;
    }
    assert digits[..|digits|] == digits;
    return Some(val);
  }

  method ScanDec(text: string) returns (r: Literal)
    requires text != "" && AllDigits(10, text)
    ensures r == Meant(10, text)
  {
    var val := ToUint64(text);
    if val.None? || val.value > MAX_ABS_INTEGER {
      return OutOfRange;
    }
    return Literal(val.value);
  }
}
