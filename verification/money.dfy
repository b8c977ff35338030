/**
 * Money arithmetic. Amounts are integers in hundredths of the currency unit
 * (the columns are DECIMAL(p, 2)); a BigDecimal division to two decimals with
 * RoundingMode.HALF_UP is `DivHalfUp` on the amounts in hundredths.
 */
module Money {
  import opened Common

  /** Half-up division of non-negative numbers: round a / b to the nearest integer, ties upward. */
  function HalfUpNat(a: int, b: int): (q: int)
    requires a >= 0 && b > 0
    ensures -b <= 2 * (a - q * b) < b
  {
    var q := (2 * a + b) / (2 * b);
    var r := (2 * a + b) % (2 * b);
    assert 2 * a + b == q * (2 * b) + r && 0 <= r < 2 * b;
    assert q * (2 * b) == 2 * (q * b);
    q
  }

  /** The quotient of a signed division, read off the quotient `m` of |a| by |b|. */
  function WithSign(a: int, b: int, m: int): int
  {
    if (a < 0) == (b < 0) then m else -m
  }

  /**
   * `q` is `a / b` rounded with HALF_UP: at most half a unit from the exact
   * quotient, and on a tie the one of larger magnitude (away from zero).
   */
  predicate RoundsHalfUp(a: int, b: int, q: int)
  {
    && b != 0
    && 2 * Abs(a - q * b) <= Abs(b)
    && (2 * Abs(a - q * b) == Abs(b) ==> Abs(q * b) > Abs(a))
  }

  /**
   * `a / b` rounded to an integer with HALF_UP. `DivHalfUpRounds` states what it
   * computes and `DivHalfUpUnique` that nothing else satisfies that.
   */
  function DivHalfUp(a: int, b: int): int
    requires b != 0
  {
    WithSign(a, b, HalfUpNat(Abs(a), Abs(b)))
  }

  /** `DivHalfUp` rounds half-up: within half a unit of a / b, ties away from zero. */
  lemma DivHalfUpRounds(a: int, b: int)
    requires b != 0
    ensures RoundsHalfUp(a, b, DivHalfUp(a, b))
  {
    var m := HalfUpNat(Abs(a), Abs(b));
    SignTransfer(a, b, WithSign(a, b, m));
    assert WithSign(a, b, WithSign(a, b, m)) == m;
  }

  /**
   * Dividing signed numbers is dividing their magnitudes: the error and the size
   * of q * b are those of the unsigned quotient `WithSign(a, b, q)`.
   */
  lemma SignTransfer(a: int, b: int, q: int)
    ensures Abs(a - q * b) == Abs(Abs(a) - WithSign(a, b, q) * Abs(b))
    ensures Abs(q * b) == Abs(WithSign(a, b, q) * Abs(b))
  {
    var m := WithSign(a, b, q);
    if b < 0 {
      assert q * b == (-q) * Abs(b);
    } else {
      assert q * b == q * Abs(b);
    }
    if (a < 0) != (b < 0) {
      assert m * Abs(b) == -(q * Abs(b));
    }
  }

  /** Euclidean division has one quotient: any q, r with n = q * d + r and 0 <= r < d give q = n / d. */
  lemma DivUnique(n: int, d: int, q: int, r: int)
    requires d > 0 && n == q * d + r && 0 <= r < d
    ensures q == n / d
  {
    var q0, r0 := n / d, n % d;
    assert n == q0 * d + r0 && 0 <= r0 < d;
    var k := q - q0;
    assert k * d == q * d - q0 * d;
    assert k * d == r0 - r;
  }

  /** For non-negative operands, nearest-with-ties-away pins down `HalfUpNat`. */
  lemma HalfUpNatUnique(a: int, b: int, q: int)
    requires a >= 0 && b > 0
    requires 2 * Abs(a - q * b) <= b
    requires 2 * Abs(a - q * b) == b ==> Abs(q * b) > a
    ensures q == HalfUpNat(a, b)
  {
    if 2 * (a - q * b) == b {
      // A tie below a: q * b = a - b / 2 is smaller than a, and not below -a.
      assert false;
    }
    assert 2 * a + b == q * (2 * b) + (2 * (a - q * b) + b);
    DivUnique(2 * a + b, 2 * b, q, 2 * (a - q * b) + b);
  }

  /**
   * The two rounding facts determine the quotient: `DivHalfUp` is the only integer
   * within half a unit of a / b that breaks ties away from zero.
   */
  lemma DivHalfUpUnique(a: int, b: int, q: int)
    requires RoundsHalfUp(a, b, q)
    ensures q == DivHalfUp(a, b)
  {
    var m := WithSign(a, b, q);
    SignTransfer(a, b, q);
    HalfUpNatUnique(Abs(a), Abs(b), m);
    assert WithSign(a, b, m) == q;
  }

  /** Division with HALF_UP is exact when b divides a. */
  lemma DivHalfUpExact(k: int, b: int)
    requires b != 0
    ensures DivHalfUp(k * b, b) == k
  {
    DivHalfUpUnique(k * b, b, k);
  }

  /** Negating the numerator negates the quotient: HALF_UP is symmetric about zero. */
  lemma DivHalfUpOdd(a: int, b: int)
    requires b != 0
    ensures DivHalfUp(-a, b) == -DivHalfUp(a, b)
  {
    var q := DivHalfUp(a, b);
    DivHalfUpRounds(a, b);
    assert -a - (-q) * b == -(a - q * b);
    assert (-q) * b == -(q * b);
    DivHalfUpUnique(-a, b, -q);
  }

  /**
   * A per-box figure: amount / boxCount at two decimals HALF_UP, or 0 when the
   * box count is not positive.
   */
  function PerBox(amount: int, boxCount: int): int
  {
    if boxCount > 0 then DivHalfUp(amount, boxCount) else 0
  }

  /** A per-box figure is 0 without a positive box count, and the rounded share otherwise. */
  lemma PerBoxRounds(amount: int, boxCount: int)
    ensures boxCount <= 0 ==> PerBox(amount, boxCount) == 0
    ensures boxCount > 0 ==> RoundsHalfUp(amount, boxCount, PerBox(amount, boxCount))
  {
    if boxCount > 0 {
      DivHalfUpRounds(amount, boxCount);
    }
  }
}
