/** Integer arithmetic on doubles, as Lua does it: every result is rounded, and below 2^53 no rounding shows. */
module Doubles {
  const TWO_53 := 0x20_0000_0000_0000

  /** What is known of a double's rounding: integers up to 2^53 are exact, and the relative error is at most 2^-53. */
  ghost predicate Rounds(rnd: real -> real) {
    && (forall x: real :: x == x.Floor as real && -TWO_53 <= x.Floor <= TWO_53 ==> rnd(x) == x)
    && (forall x: real :: 1.0 <= x * TWO_53 as real && x <= TWO_53 as real ==> -x <= (rnd(x) - x) * TWO_53 as real <= x)
  }

  /** The double nearest to an integer result, again an integer. */
  function Fl(rnd: real -> real, n: int): int { rnd(n as real).Floor }

  lemma Exact(rnd: real -> real, n: int)
    requires Rounds(rnd) && -TWO_53 <= n <= TWO_53
    ensures Fl(rnd, n) == n
  {
    var x := n as real;
    assert rnd(x) == x;
  }

  /** floor(a / b) on doubles. */
  function Quot(rnd: real -> real, a: int, b: int): int
    requires b > 0
  {
    rnd(a as real / b as real).Floor
  }

  /** a % b on doubles, which Lua 5.1 computes from the rounded quotient. */
  function Mod(rnd: real -> real, a: int, b: int): int
    requires b > 0
  {
    Fl(rnd, a - Fl(rnd, b * Quot(rnd, a, b)))
  }

  lemma Less(y: real, z: real, b: real, yb: real, zb: real)
    requires b > 0.0 && yb == y * b && zb == z * b && yb < zb
    ensures y < z
  {
  }

  lemma Sum(x: real, y: real, b: real, xb: real, yb: real, z: real)
    requires xb == x * b && yb == y * b && z == x + y
    ensures z * b == xb + yb
  {
  }

  lemma Scale(x: real, y: real, b: real, xb: real, yb: real)
    requires b >= 0.0 && xb == x * b && yb == y * b && x <= y
    ensures xb <= yb
  {
  }

  /** The rounding error of a quotient is smaller than the distance between multiples. */
  lemma ErrorBelowGap(e: real, x: real, b: real, t: real, et: real, eb: real, xb: real)
    requires b > 0.0 && t > 0.0 && et == e * t && eb == e * b && xb == x * b
    requires -x <= et <= x && 0.0 < xb < t
    ensures -1.0 < eb < 1.0
  {
    var etb := et * b;
    Scale(et, x, b, etb, xb);
    Scale(-x, et, b, -xb, etb);
    Swap(e, t, b, et, eb, etb);
    Less(eb, 1.0, t, etb, t);
    Less(-1.0, eb, t, -t, etb);
  }

  lemma Swap(e: real, t: real, b: real, et: real, eb: real, etb: real)
    requires et == e * t && eb == e * b && etb == et * b
    ensures etb == eb * t
  {
  }

  lemma QuotBracket(x: real, e: real, b: real, q: real, r: real, xb: real, eb: real, qb: real)
    requires xb == x * b && eb == e * b && qb == q * b
    requires b > 0.0 && 1.0 <= r <= b - 1.0 && xb == qb + r && -1.0 < eb < 1.0
    ensures q <= x + e < q + 1.0
  {
    var y, z := x + e, q + 1.0;
    Sum(x, e, b, xb, eb, y);
    Sum(q, 1.0, b, qb, b, z);
    Less(q, y, b, qb, xb + eb);
    Less(y, z, b, xb + eb, qb + b);
  }

  lemma QuotRange(a: real, b: real, x: real, t: real)
    requires 1.0 <= a <= t && 1.0 <= b <= t && x * b == a
    ensures 1.0 <= x * t && x <= t
  {
    Less(0.0, x, b, 0.0, a);
    Scale(b, t, x, a, x * t);
    Scale(1.0, b, x, x, a);
  }

  lemma Product(b: int, q: int, k: int, bq: int)
    requires b > 0 && bq == b * q
    ensures (q >= k ==> bq >= b * k) && (q <= k ==> bq <= b * k)
  {
  }

  lemma QuotSign(a: int, b: int, q: int, r: int, bq: int)
    requires 0 <= a && 0 < b && bq == b * q && a == bq + r && 0 <= r < b
    ensures 0 <= q <= bq <= a
  {
    Product(b, q, -1, bq);
    Product(b, q, 0, bq);
    Big(b, q, bq);
  }

  lemma Big(b: int, q: int, bq: int)
    requires b > 0 && bq == b * q
    ensures q >= 0 ==> bq >= q
  {
  }

  lemma DivParts(a: int, b: int)
    requires 0 <= a && 0 < b
    ensures 0 <= a / b <= a && 0 <= a % b < b && a == b * (a / b) + a % b && 0 <= b * (a / b) <= a
  {
    var q, r := a / b, a % b;
    QuotSign(a, b, q, r, b * q);
  }

  lemma SameQuot(b: int, d: int, bd: int)
    requires b > 0 && bd == b * d && -b < bd < b
    ensures d == 0
  {
  }

  lemma DivExact(q: int, b: int, a: int)
    requires b > 0 && a == b * q
    ensures a / b == q
  {
    var d := a / b - q;
    var p := b * (a / b);
    assert a == p + a % b;
    SameQuot(b, d, p - a);
  }

  /** A double within half a unit in the last place of `a / b` has the quotient's floor. */
  lemma QuotFloor(a: int, b: int, q: int, r: int, x: real, y: real)
    requires 0 <= r < b <= TWO_53 && 0 <= a < TWO_53 && (r != 0 ==> 0 < a)
        && x * b as real == a as real == q as real * b as real + r as real
    requires if r == 0 then y == q as real else -x <= (y - x) * TWO_53 as real <= x
    ensures y.Floor == q
  {
    var t := TWO_53 as real;
    if r != 0 {
      var br, e := b as real, y - x;
      ErrorBelowGap(e, x, br, t, e * t, e * br, x * br);
      QuotBracket(x, e, br, q as real, r as real, x * br, e * br, q as real * br);
    }
  }

  lemma QuotIsInteger(a: int, b: int, q: int, x: real)
    requires b > 0 && x * b as real == a as real == q as real * b as real
    ensures x == q as real
  {
    if x < q as real { Scaled(x, q as real, b as real); }
    if x > q as real { Scaled(q as real, x, b as real); }
  }

  lemma Scaled(x: real, y: real, b: real)
    requires b > 0.0 && x < y
    ensures x * b < y * b
  {
  }

  /** Rounding a quotient of integers below 2^53 never reaches the next integer. */
  lemma QuotExact(rnd: real -> real, a: int, b: int)
    requires Rounds(rnd) && 0 <= a < TWO_53 && 0 < b <= TWO_53
    ensures Quot(rnd, a, b) == a / b
  {
    var x, q, r := a as real / b as real, a / b, a % b;
    DivParts(a, b);
    assert a as real == q as real * b as real + r as real by { assert (q * b) as real == q as real * b as real; }
    assert x * b as real == a as real;
    if r == 0 {
      QuotIsInteger(a, b, q, x);
      assert rnd(x) == x;
    } else {
      QuotRange(a as real, b as real, x, TWO_53 as real);
    }
    QuotFloor(a, b, q, r, x, rnd(x));
  }

  lemma ModFrom(rnd: real -> real, a: int, b: int, q: int, r: int, bq: int)
    requires Rounds(rnd) && 0 < b && Quot(rnd, a, b) == q && bq == b * q && a == bq + r && 0 <= r <= a <= TWO_53
    ensures Mod(rnd, a, b) == r
  {
    Exact(rnd, bq);
    Exact(rnd, r);
  }

  lemma ModExact(rnd: real -> real, a: int, b: int)
    requires Rounds(rnd) && 0 <= a < TWO_53 && 0 < b <= TWO_53
    ensures Mod(rnd, a, b) == a % b
  {
    QuotExact(rnd, a, b);
    DivParts(a, b);
    ModFrom(rnd, a, b, a / b, a % b, b * (a / b));
  }
}
