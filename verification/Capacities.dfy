/**
 * Capacities on their way through JSON numbers: an int64 becomes a double and an int64
 * again (`float64(requiredBytes)` in the CSI driver, `int64(NumberValue)` in the service).
 * Doubles round to nearest, ties to even (section 4.3.1 of IEEE 754).
 */
module Capacities {
  const SIGNIFICANDS := 0x20_0000_0000_0000
  const MAX_INT64 := 0x7fff_ffff_ffff_ffff

  function Pow2(e: nat): (p: nat)
    ensures p >= 1
  {
    if e == 0 then 1 else 2 * Pow2(e - 1)
  }

  /** The exponent at which a number has a 53-bit significand. */
  function Exponent(n: nat): nat {
    if n < SIGNIFICANDS then 0 else 1 + Exponent(n / 2)
  }

  /** The distance between neighbouring doubles at this magnitude. */
  function Ulp(n: nat): (u: nat)
    ensures u >= 1
  {
    Pow2(Exponent(n))
  }

  /** Go's conversion of an integer to a double. */
  function ToDouble(n: int): int {
    if n >= 0 then Nearest(n) else 0 - Nearest(-n)
  }

  function Nearest(n: nat): nat {
    var u := Ulp(n);
    var q, r := n / u, n % u;
    if 2 * r < u || (2 * r == u && q % 2 == 0) then q * u else (q + 1) * u
  }

  /** The non-negative integers that are doubles. */
  ghost predicate IsDouble(m: nat) {
    exists q: nat, e: nat :: q < SIGNIFICANDS && m == Scaled(q, e)
  }

  function Scaled(q: nat, e: nat): nat {
    q * Pow2(e)
  }

  function Distance(a: int, b: int): nat {
    if a <= b then b - a else a - b
  }

  /** A number above 2^53 has a full significand at its exponent. */
  lemma {:induction false} FullSignificand(n: nat)
    ensures n / Ulp(n) < SIGNIFICANDS
    ensures Exponent(n) > 0 ==> n / Ulp(n) >= SIGNIFICANDS / 2
  {
    if n >= SIGNIFICANDS {
      FullSignificand(n / 2);
      var u := Ulp(n / 2);
      assert Ulp(n) == 2 * u;
      assert n / (2 * u) == (n / 2) / u by {
        HalveQuotient(n, u);
      }
    }
  }

  lemma HalveQuotient(n: nat, u: nat)
    requires u >= 1
    ensures n / (2 * u) == (n / 2) / u
  {
    var q, r := (n / 2) / u, (n / 2) % u;
    assert n / 2 == q * u + r;
    var rest := 2 * r + n % 2;
    assert n == q * (2 * u) + rest && 0 <= rest < 2 * u;
    QuotientUnique(n, 2 * u, q, rest);
  }

  lemma MultipleBound(k: int, d: nat)
    ensures k >= 1 ==> k * d >= d
    ensures k <= -1 ==> k * d + d <= 0
  {
    if k >= 1 {
      assert k * d == (k - 1) * d + d;
    } else if k <= -1 {
      assert k * d + d == (k + 1) * d;
    }
  }

  lemma QuotientUnique(n: nat, d: nat, q: nat, r: nat)
    requires d >= 1 && n == q * d + r && r < d
    ensures n / d == q && n % d == r
  {
    var k := n / d - q;
    assert k * d == (n / d) * d - q * d == r - n % d;
    MultipleBound(k, d);
  }

  lemma Quotient(n: nat, u: nat)
    requires u >= 1
    ensures (n / u) * u <= n < (n / u + 1) * u && n % u == n - (n / u) * u
  {
  }

  /** Up to 2^53 every integer is a double. */
  lemma NearestIsExact(n: nat)
    requires n <= SIGNIFICANDS
    ensures Nearest(n) == n
  {
  }

  /** Rounding moves a number by at most half the distance between its neighbours. */
  lemma NearestWithinHalf(n: nat)
    ensures 2 * Distance(n, Nearest(n)) <= Ulp(n)
  {
    Quotient(n, Ulp(n));
  }

  /** Rounding yields a double. */
  lemma NearestIsDouble(n: nat)
    ensures IsDouble(Nearest(n))
  {
    var e, q := Exponent(n), n / Ulp(n);
    FullSignificand(n);
    assert Scaled(q, e) == q * Ulp(n);
    if q + 1 == SIGNIFICANDS {
      assert Scaled(SIGNIFICANDS / 2, e + 1) == SIGNIFICANDS / 2 * (2 * Ulp(n)) == (q + 1) * Ulp(n);
    } else {
      assert Scaled(q + 1, e) == (q + 1) * Ulp(n);
    }
  }

  lemma {:induction false} Pow2Splits(a: nat, b: nat)
    ensures Pow2(a + b) == Pow2(a) * Pow2(b)
  {
    if a > 0 {
      Pow2Splits(a - 1, b);
      assert Pow2(a + b) == 2 * (Pow2(a - 1) * Pow2(b)) == Pow2(a) * Pow2(b);
    }
  }

  lemma MulMono(a: nat, b: nat, c: nat)
    requires a <= b
    ensures a * c <= b * c
  {
    assert b * c == a * c + (b - a) * c;
  }

  lemma MulSwap(a: nat, b: nat, c: nat)
    ensures a * (b * c) == (a * b) * c
  {
  }

  /** Doubles of a coarser grid are on the number's grid. */
  lemma CoarseIsOnGrid(q: nat, e: nat, x: nat)
    requires e >= x
    ensures Scaled(q, e) == (q * Pow2(e - x)) * Pow2(x)
  {
    Pow2Splits(e - x, x);
    MulSwap(q, Pow2(e - x), Pow2(x));
  }

  /** Doubles of a finer grid have too small a significand to pass the number. */
  lemma FineIsBelow(q: nat, e: nat, x: nat, k: nat)
    requires e < x && q < SIGNIFICANDS && k >= SIGNIFICANDS / 2
    ensures Scaled(q, e) <= k * Pow2(x)
  {
    var fine, p, half := Pow2(e), Pow2(x - 1 - e), SIGNIFICANDS / 2;
    Pow2Splits(x - 1 - e, e);
    MulMono(1, p, fine);
    MulMono(q, 2 * half, fine);
    MulMono(fine, p * fine, 2 * half);
    MulMono(half, k, Pow2(x));
    MulSwap(half, 2, p * fine);
  }

  /** No double lies strictly between a number's two neighbours on its grid. */
  lemma NoDoubleBetween(n: nat, q: nat, e: nat)
    requires q < SIGNIFICANDS
    ensures var u := Ulp(n); Scaled(q, e) <= (n / u) * u || Scaled(q, e) >= (n / u + 1) * u
  {
    var x, k := Exponent(n), n / Ulp(n);
    FullSignificand(n);
    if e >= x {
      CoarseIsOnGrid(q, e, x);
      GridStep(q * Pow2(e - x), k, Ulp(n));
    } else {
      FineIsBelow(q, e, x, k);
    }
  }

  lemma GridStep(m: nat, k: nat, u: nat)
    ensures m * u <= k * u || m * u >= (k + 1) * u
  {
    if m <= k {
      MulMono(m, k, u);
    } else {
      MulMono(k + 1, m, u);
    }
  }

  /** No double is nearer to a number than the one it rounds to. */
  lemma NearestIsNearest(n: nat, m: nat)
    requires IsDouble(m)
    ensures Distance(n, Nearest(n)) <= Distance(n, m)
  {
    var q: nat, e: nat :| q < SIGNIFICANDS && m == Scaled(q, e);
    NoDoubleBetween(n, q, e);
    Quotient(n, Ulp(n));
  }

  /** Halfway between two doubles, rounding picks the one with the even significand. */
  lemma TiesGoToEven(n: nat)
    requires 2 * (n % Ulp(n)) == Ulp(n)
    ensures exists q: nat :: q % 2 == 0 && Nearest(n) == q * Ulp(n)
  {
    var q := n / Ulp(n);
    assert Nearest(n) == if q % 2 == 0 then q * Ulp(n) else (q + 1) * Ulp(n);
  }

  /** Rounding leaves exactly the doubles as they are. */
  lemma NearestFixesDoubles(n: nat)
    ensures Nearest(n) == n <==> IsDouble(n)
  {
    NearestIsDouble(n);
    if IsDouble(n) {
      NearestIsNearest(n, n);
    }
  }

  /** Less than half a gap above the double below, or half a gap above one with an even significand. */
  predicate RoundsDown(n: nat) {
    var u := Ulp(n);
    n % u != 0 && (2 * (n % u) < u || (2 * (n % u) == u && (n / u) % 2 == 0))
  }

  /** The numbers that rounding makes smaller. */
  lemma NearestFallsShort(n: nat)
    ensures Nearest(n) < n <==> RoundsDown(n)
    ensures Nearest(n) > n <==> !IsDouble(n) && !RoundsDown(n)
  {
    Quotient(n, Ulp(n));
    NearestFixesDoubles(n);
  }
}
