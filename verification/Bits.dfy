/** Bitwise operators on natural numbers, defined digit by digit.
    Fixed-width words are naturals below `Pow2(w)`; a word-sized shift is an
    unbounded shift followed by the truncation `% Pow2(w)`. */
module Bits {

  function Pow2(n: nat): (r: nat)
    ensures r > 0
  {
    if n == 0 then 1 else 2 * Pow2(n - 1)
  }

  /** Digit `i` of `n` in base two. */
  predicate Bit(n: nat, i: nat) {
    if i == 0 then n % 2 == 1 else Bit(n / 2, i - 1)
  }

  function Shl(n: nat, s: nat): nat {
    n * Pow2(s)
  }

  function And(a: nat, b: nat): nat {
    if a == 0 || b == 0 then 0 else 2 * And(a / 2, b / 2) + (a % 2) * (b % 2)
  }

  function Or(a: nat, b: nat): nat
    decreases a + b
  {
    if a == 0 then b else if b == 0 then a
    else 2 * Or(a / 2, b / 2) + (if a % 2 == 1 || b % 2 == 1 then 1 else 0)
  }

  function Xor(a: nat, b: nat): nat
    decreases a + b
  {
    if a == 0 then b else if b == 0 then a
    else 2 * Xor(a / 2, b / 2) + (a + b) % 2
  }

  lemma {:induction false} BitOfZero(i: nat)
    ensures !Bit(0, i)
  {
    if i > 0 { BitOfZero(i - 1); }
  }

  lemma {:induction false} BitOfAnd(a: nat, b: nat, i: nat)
    ensures Bit(And(a, b), i) == (Bit(a, i) && Bit(b, i))
  {
    BitOfZero(i);
    if a != 0 && b != 0 && i > 0 {
      assert And(a, b) / 2 == And(a / 2, b / 2);
      BitOfAnd(a / 2, b / 2, i - 1);
    }
  }

  lemma {:induction false} BitOfOr(a: nat, b: nat, i: nat)
    ensures Bit(Or(a, b), i) == (Bit(a, i) || Bit(b, i))
  {
    BitOfZero(i);
    if a != 0 && b != 0 && i > 0 {
      assert Or(a, b) / 2 == Or(a / 2, b / 2);
      BitOfOr(a / 2, b / 2, i - 1);
    }
  }

  lemma {:induction false} BitOfShl(n: nat, s: nat, i: nat)
    ensures Bit(Shl(n, s), i) == (s <= i && Bit(n, i - s))
  {
    if s > 0 {
      assert Shl(n, s) == 2 * Shl(n, s - 1) by { ShlStep(n, s); }
      if i > 0 {
        assert Shl(n, s) / 2 == Shl(n, s - 1);
        BitOfShl(n, s - 1, i - 1);
      }
    }
  }

  lemma ShlStep(n: nat, s: nat)
    requires s > 0
    ensures Shl(n, s) == 2 * Shl(n, s - 1)
  {
    assert n * (2 * Pow2(s - 1)) == 2 * (n * Pow2(s - 1));
  }

  /** Truncating to `w` bits keeps exactly the digits below `w`. */
  lemma {:induction false} BitOfTruncated(n: nat, w: nat, i: nat)
    ensures Bit(n % Pow2(w), i) == (i < w && Bit(n, i))
    decreases w
  {
    BitOfZero(i);
    if w > 0 {
      TruncateStep(n, Pow2(w - 1));
      if i > 0 { BitOfTruncated(n / 2, w - 1, i - 1); }
    }
  }

  lemma TruncateStep(n: nat, p: nat)
    requires p > 0
    ensures n % (2 * p) == 2 * (n / 2 % p) + n % 2
  {
    var q, r := n / 2 / p, n / 2 % p;
    assert n == 2 * (q * p + r) + n % 2;
    assert n == q * (2 * p) + (2 * r + n % 2) by { assert 2 * (q * p) == q * (2 * p); }
    DivModUnique(n, 2 * p, q, 2 * r + n % 2);
  }

  lemma DivModUnique(n: nat, m: nat, q: nat, r: nat)
    requires m > 0 && r < m && n == q * m + r
    ensures n / m == q && n % m == r
  {
    var d := n / m - q;
    assert d * m == (n / m) * m - q * m;
    assert d * m == r - n % m;
    assert d < 1 by { if d >= 1 { assert false; } }
    assert d > -1 by { if d <= -1 { assert false; } }
  }

  lemma {:induction false} BitOfPow2(d: nat, i: nat)
    ensures Bit(Pow2(d), i) == (i == d)
  {
    BitOfZero(i);
    if d > 0 && i > 0 { BitOfPow2(d - 1, i - 1); }
    if d == 0 && i > 0 { BitOfZero(i - 1); }
  }

  lemma {:induction false} BitOfAllOnes(w: nat, i: nat)
    ensures Bit(Pow2(w) - 1, i) == (i < w)
  {
    BitOfZero(i);
    if w > 0 && i > 0 {
      assert (Pow2(w) - 1) / 2 == Pow2(w - 1) - 1;
      BitOfAllOnes(w - 1, i - 1);
    }
  }

  /** A number is non-zero exactly when some digit is set. */
  lemma {:induction false} SomeBit(n: nat) returns (i: nat)
    requires n != 0
    ensures Bit(n, i)
  {
    if n % 2 == 1 {
      i := 0;
    } else {
      var j := SomeBit(n / 2);
      i := j + 1;
    }
  }

  /** `n & (1 << d)` tests digit `d`. */
  lemma TestBit(n: nat, d: nat)
    ensures And(n, Shl(1, d)) != 0 <==> Bit(n, d)
  {
    BitOfAnd(n, Pow2(d), d);
    BitOfPow2(d, d);
    BitOfZero(d);
    if And(n, Pow2(d)) != 0 {
      var i := SomeBit(And(n, Pow2(d)));
      BitOfAnd(n, Pow2(d), i);
      BitOfPow2(d, i);
    }
  }

  lemma XorDigit(a: nat, b: nat)
    ensures Xor(a, b) / 2 == Xor(a / 2, b / 2) && Xor(a, b) % 2 == (a + b) % 2
  {
  }

  lemma SameDigits(a: nat, b: nat, x: nat, y: nat)
    requires x % 2 == (a + b) % 2 && y % 2 == (x + b) % 2 && y / 2 == a / 2
    ensures y == a
  {
    assert y % 2 == a % 2;
  }

  lemma {:induction false} XorUndo(a: nat, b: nat)
    ensures Xor(Xor(a, b), b) == a
    decreases a + b
  {
    if a == 0 {
      XorSelf(b);
    } else if b != 0 {
      XorUndo(a / 2, b / 2);
      XorDigit(a, b);
      XorDigit(Xor(a, b), b);
      SameDigits(a, b, Xor(a, b), Xor(Xor(a, b), b));
    }
  }

  lemma {:induction false} XorCommutes(a: nat, b: nat)
    ensures Xor(a, b) == Xor(b, a)
  {
    if a != 0 && b != 0 { XorCommutes(a / 2, b / 2); }
  }

  lemma {:induction false} XorSelf(b: nat)
    ensures Xor(b, b) == 0
  {
    if b != 0 { XorSelf(b / 2); }
  }

  /** Xor stays inside a word. */
  lemma {:induction false} XorBound(a: nat, b: nat, w: nat)
    requires a < Pow2(w) && b < Pow2(w)
    ensures Xor(a, b) < Pow2(w)
    decreases w
  {
    if a != 0 && b != 0 { XorBound(a / 2, b / 2, w - 1); }
  }
}
