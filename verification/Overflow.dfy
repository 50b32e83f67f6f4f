/** The three overflow predicates of the evaluator, and C++ integer division. */
module Overflow {
  import opened Expressions
  import opened Naturals

  /** Division that truncates toward zero (section 8.6 of ISO C++17). */
  function Quotient(a: int, b: int): int
    requires b != 0
  {
    if a >= 0 then (if b > 0 then a / b else -(a / -b))
    else (if b > 0 then -(-a / b) else -a / -b)
  }

  function Remainder(a: int, b: int): int
    requires b != 0
  {
    a - Quotient(a, b) * b
  }

  /** A test written in int64 arithmetic either has an answer or is itself undefined. */
  datatype Test = Answer(overflow: bool) | Trap

  function IsAddOverflow(l: int, r: int): Test {
    if l >= 0 && r >= 0 then Answer(MAX_INT - l < r)
    else if l < 0 && r < 0 then Answer(MIN_INT - l > r)
    else Answer(false)
  }

  /** `-r` is undefined for the least integer. */
  function IsSubOverflow(l: int, r: int): Test {
    if l > 0 && r < 0 then (if r == MIN_INT then Trap else Answer(MAX_INT - l < -r))
    else if l < 0 && r > 0 then Answer(MIN_INT - l > -r)
    else Answer(false)
  }

  /** `minInt / l` is undefined for l = -1. */
  function IsMulOverflow(l: int, r: int): Test {
    if l > 0 && r > 0 then Answer(Quotient(MAX_INT, l) < r)
    else if l < 0 && r < 0 then Answer(Quotient(MAX_INT, l) > r)
    else if l > 0 && r < 0 then Answer(Quotient(MIN_INT, l) > r)
    else if l < 0 && r > 0 then (if l == -1 then Trap else Answer(Quotient(MIN_INT, l) < r))
    else Answer(false)
  }

  // ---- Exactness -----------------------------------------------------------

  lemma AddExact(l: int, r: int)
    requires InInt64(l) && InInt64(r)
    ensures IsAddOverflow(l, r) == Answer(!InInt64(l + r))
  {
  }

  /** The test is right exactly unless the right operand is the least integer and the left one is not
      negative; then it is undefined, or says no although the difference does overflow. */
  lemma SubExact(l: int, r: int)
    requires InInt64(l) && InInt64(r)
    ensures IsSubOverflow(l, r) == Answer(!InInt64(l - r)) <==> !(r == MIN_INT && l >= 0)
    ensures r == MIN_INT && l > 0 ==> IsSubOverflow(l, r) == Trap
    ensures r == MIN_INT && l == 0 ==> IsSubOverflow(l, r) == Answer(false) && !InInt64(l - r)
  {
  }

  lemma FloorBound(m: nat, a: nat, b: nat)
    requires a > 0
    ensures m / a < b <==> m < a * b
  {
    var q := m / a;
    assert q * a <= m < q * a + a;
    if q < b {
      MulMono(q + 1, b, a);
      assert (q + 1) * a == q * a + a;
    } else {
      MulMono(b, q, a);
    }
  }

  lemma SignedProduct(l: int, r: int)
    ensures l * r == -l * -r && l * -r == -(l * r) && -l * r == -(l * r)
    ensures l > 0 && r > 0 ==> l * r > 0
    ensures l < 0 && r < 0 ==> l * r > 0
    ensures l > 0 && r < 0 ==> l * r < 0
    ensures l < 0 && r > 0 ==> l * r < 0
  {
  }

  /** The test is right exactly unless the left operand is -1 and the right one is positive. */
  lemma MulExact(l: int, r: int)
    requires InInt64(l) && InInt64(r)
    ensures IsMulOverflow(l, r) == Answer(!InInt64(l * r)) <==> !(l == -1 && r > 0)
    ensures l == -1 && r > 0 ==> IsMulOverflow(l, r) == Trap && InInt64(l * r)
  {
    if l > 0 && r > 0 {
      FloorBound(MAX_INT, l, r);
      SignedProduct(l, r);
    } else if l < 0 && r < 0 {
      FloorBound(MAX_INT, -l, -r);
      SignedProduct(l, r);
    } else if l > 0 && r < 0 {
      FloorBound(-MIN_INT, l, -r);
      SignedProduct(l, r);
    } else if l < 0 && r > 0 {
      FloorBound(-MIN_INT, -l, r);
      SignedProduct(l, r);
    } else {
      assert l * r == 0;
    }
  }

  function Abs(x: int): nat {
    if x < 0 then -x else x
  }

  lemma DivideShrinks(n: nat, m: nat)
    requires m > 0
    ensures 0 <= n / m <= n
    ensures m > 1 && n > 0 ==> n / m < n
    ensures m == 1 ==> n / m == n
  {
    if n > 0 {
      FloorBound(n, m, n + 1);
      MulMono(1, m, n + 1);
      if m > 1 {
        FloorBound(n, m, n);
        MulMono(2, m, n);
      }
    }
  }

  lemma QuotientSmall(a: int, b: int)
    requires b != 0
    ensures Abs(Quotient(a, b)) == Abs(a) / Abs(b) <= Abs(a)
    ensures Abs(b) > 1 && a != 0 ==> Abs(Quotient(a, b)) < Abs(a)
    ensures (a >= 0) == (b > 0) ==> Quotient(a, b) >= 0
    ensures b == 1 ==> Quotient(a, b) == a
    ensures b == -1 ==> Quotient(a, b) == -a
  {
    DivideShrinks(Abs(a), Abs(b));
  }

  /** A quotient of int64 values leaves the range in one case only. */
  lemma QuotientRange(a: int, b: int)
    requires InInt64(a) && InInt64(b) && b != 0
    ensures InInt64(Quotient(a, b)) <==> !(a == MIN_INT && b == -1)
  {
    if a == MIN_INT && b == -1 {
      assert -a / -b == -a;
    } else {
      QuotientSmall(a, b);
    }
  }

  lemma DivideRest(n: nat, m: nat)
    requires m > 0
    ensures 0 <= n - (n / m) * m < m
  {
  }

  /** The pair really is truncating division: the remainder has the sign of the dividend and is
      smaller than the divisor. */
  lemma TruncatingDivision(a: int, b: int)
    requires b != 0
    ensures a == Quotient(a, b) * b + Remainder(a, b)
    ensures Abs(Remainder(a, b)) < Abs(b)
    ensures a >= 0 ==> Remainder(a, b) >= 0
    ensures a <= 0 ==> Remainder(a, b) <= 0
  {
    var q := Abs(a) / Abs(b);
    DivideRest(Abs(a), Abs(b));
    SignedProduct(q, Abs(b));
    assert Quotient(a, b) * b == if a >= 0 then q * Abs(b) else -(q * Abs(b));
  }

  lemma RemainderRange(a: int, b: int)
    requires InInt64(a) && InInt64(b) && b != 0
    ensures InInt64(Remainder(a, b))
  {
    TruncatingDivision(a, b);
  }
}
