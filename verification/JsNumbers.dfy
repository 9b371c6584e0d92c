/** The integers of a JavaScript number: exact up to 2^53, then doubles. */
module JsNumbers {
  const EXACT: nat := 0x20_0000_0000_0000

  /** The distance between neighbouring doubles around `n`. */
  function Spacing(n: nat): nat {
    if n < EXACT then 1 else 2 * Spacing(n / 2)
  }

  predicate IsDouble(n: nat) {
    Spacing(n) != 0 && n % Spacing(n) == 0
  }

  lemma {:induction false} SpacingIsEven(n: nat)
    ensures Spacing(n) >= 1
    ensures n >= EXACT ==> Spacing(n) >= 2 && Spacing(n) % 2 == 0 && (Spacing(n) == 2 || Spacing(n) >= 4)
  {
    if n >= EXACT { SpacingIsEven(n / 2); }
  }

  /** Round to nearest, ties to the even multiple. */
  function Round(n: nat): (r: nat) {
    SpacingIsEven(n);
    var u := Spacing(n);
    var q := n / u;
    var rest := n % u;
    if 2 * rest < u || (2 * rest == u && q % 2 == 0) then q * u else (q + 1) * u
  }

  /** `n++`. */
  function Next(n: nat): nat {
    Round(n + 1)
  }

  lemma SmallIsExact(n: nat)
    requires n <= EXACT
    ensures Round(n) == n && IsDouble(n)
  {
    if n == EXACT {
      assert Spacing(n / 2) == 1;
    }
  }

  lemma NextIsExact(n: nat)
    requires n < EXACT
    ensures Next(n) == n + 1
  {
    SmallIsExact(n + 1);
  }

  lemma MulMono(a: nat, b: nat, d: nat)
    requires a <= b
    ensures a * d <= b * d
  {
    assert b * d == a * d + (b - a) * d;
  }

  lemma Quotient(n: nat, d: nat, q: nat, r: nat)
    requires d > 0 && n == q * d + r && r < d
    ensures n / d == q && n % d == r
  {
    var k := n / d;
    var s := n % d;
    assert n == k * d + s;
    assert (k + 1) * d == k * d + d;
    assert (q + 1) * d == q * d + d;
    if k < q {
      MulMono(k + 1, q, d);
    } else if k > q {
      MulMono(q + 1, k, d);
    }
  }

  lemma Halve(n: nat, u: nat)
    requires u > 0
    ensures n / (2 * u) == (n / 2) / u
  {
    var q := (n / 2) / u;
    var r := (n / 2) % u;
    assert n / 2 == q * u + r;
    assert n == q * (2 * u) + (2 * r + n % 2);
    Quotient(n, 2 * u, q, 2 * r + n % 2);
  }

  /** A double has 53 significant bits. */
  lemma {:induction false} Significand(n: nat)
    requires n >= EXACT
    ensures Spacing(n) >= 2 && EXACT / 2 <= n / Spacing(n) < EXACT
  {
    SpacingIsEven(n);
    SpacingIsEven(n / 2);
    Halve(n, Spacing(n / 2));
    if n / 2 >= EXACT {
      Significand(n / 2);
    } else {
      assert Spacing(n / 2) == 1;
    }
  }

  lemma {:induction false} SpacingOfMultiple(q: nat, n: nat)
    requires EXACT / 2 <= q < EXACT && n >= EXACT
    ensures Spacing(q * Spacing(n)) == Spacing(n)
  {
    var half := Spacing(n / 2);
    SpacingIsEven(n / 2);
    assert q * Spacing(n) == 2 * (q * half);
    assert (q * Spacing(n)) / 2 == q * half;
    MulMono(1, half, q);
    assert q * half >= q;
    if n / 2 >= EXACT {
      SpacingOfMultiple(q, n / 2);
    } else {
      assert half == 1 && q * half == q;
    }
  }

  lemma {:induction false} FullMultiple(n: nat)
    requires n >= EXACT
    ensures Spacing(EXACT * Spacing(n)) == 2 * Spacing(n)
  {
    var half := Spacing(n / 2);
    SpacingIsEven(n / 2);
    assert (EXACT * Spacing(n)) / 2 == EXACT * half;
    if n / 2 >= EXACT {
      FullMultiple(n / 2);
    } else {
      assert half == 1;
      assert Spacing(EXACT) == 2 * Spacing(EXACT / 2);
      assert Spacing(EXACT * 2) == 2 * Spacing(EXACT);
    }
  }

  lemma Divides(q: nat, u: nat)
    requires u > 0
    ensures (q * u) % u == 0 && (2 * q) * u == q * (2 * u)
  {
    Quotient(q * u, u, q, 0);
  }

  lemma MultipleIsDouble(q: nat, n: nat)
    requires EXACT / 2 <= q <= EXACT && n >= EXACT
    ensures IsDouble(q * Spacing(n))
  {
    hide Spacing;
    SpacingIsEven(n);
    var u := Spacing(n);
    if q < EXACT {
      SpacingOfMultiple(q, n);
      Divides(q, u);
    } else {
      FullMultiple(n);
      Divides(EXACT / 2, u);
      Divides(EXACT / 2, 2 * u);
    }
  }

  /** Rounding gives a double. */
  lemma RoundIsDouble(n: nat)
    ensures IsDouble(Round(n))
  {
    hide IsDouble, Spacing;
    if n < EXACT {
      SmallIsExact(n);
    } else {
      Significand(n);
      MultipleIsDouble(n / Spacing(n), n);
      MultipleIsDouble(n / Spacing(n) + 1, n);
    }
  }

  /** To the nearest multiple of the spacing; a number halfway between two goes to the even one. */
  lemma RoundIsNearest(n: nat) returns (q: nat)
    ensures Round(n) == q * Spacing(n) && 2 * n - Spacing(n) <= 2 * Round(n) <= 2 * n + Spacing(n)
    ensures 2 * (n % Spacing(n)) == Spacing(n) ==> q % 2 == 0
  {
    hide Spacing;
    SpacingIsEven(n);
    q := NearestMultiple(n, Spacing(n));
  }

  lemma NearestMultiple(n: nat, u: nat) returns (q: nat)
    requires u > 0
    ensures q * u == if 2 * (n % u) < u || (2 * (n % u) == u && (n / u) % 2 == 0) then n / u * u else (n / u + 1) * u
    ensures 2 * n - u <= 2 * (q * u) <= 2 * n + u && (2 * (n % u) == u ==> q % 2 == 0)
  {
    var low, rest := n / u, n % u;
    var below := low * u;
    assert n == below + rest && (low + 1) * u == below + u;
    q := if 2 * rest < u || (2 * rest == u && low % 2 == 0) then low else low + 1;
  }

  lemma LargeDoublesAreEven(n: nat)
    requires n >= EXACT && IsDouble(n)
    ensures n % 2 == 0
  {
    SpacingIsEven(n);
    var half := Spacing(n / 2);
    var q := n / Spacing(n);
    assert n == q * (2 * half);
    assert q * (2 * half) == 2 * (q * half);
  }

  /** Past 2^53 a double is even, so one more is nearest to itself, or halfway to the next even multiple. */
  lemma NextOfLarge(n: nat)
    requires n >= EXACT && IsDouble(n)
    ensures Next(n) == if Spacing(n) == 2 && (n / 2) % 2 == 1 then n + 2 else n
  {
    SpacingIsEven(n);
    LargeDoublesAreEven(n);
    assert (n + 1) / 2 == n / 2;
    var u := Spacing(n);
    assert Spacing(n + 1) == u;
    var q := n / u;
    assert n == q * u;
    Quotient(n + 1, u, q, 1);
    if u == 2 {
      assert (q + 1) * u == n + 2;
    }
  }

  /** From 2^53 on, `n++` changes the number at most once. */
  lemma LargeNumbersStick(n: nat)
    requires n >= EXACT && IsDouble(n)
    ensures n <= Next(n) <= n + 2 && IsDouble(Next(n)) && Next(Next(n)) == Next(n)
  {
    RoundIsDouble(n + 1);
    NextOfLarge(n);
    NextOfLarge(Next(n));
    if Next(n) != n && Spacing(n + 2) == 2 {
      assert (n + 2) / 2 == n / 2 + 1;
    }
  }
}
