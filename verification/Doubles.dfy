/** `float64(n)` for an unsigned 64-bit integer, and what `-float64(t) - 1` makes of a negative one. */
module Doubles {

  const TwoTo52: int := 0x10_0000_0000_0000
  const TwoTo53: int := 0x20_0000_0000_0000

  /** The distance of the float64 values around `n`, for the 64-bit integers. */
  function Ulp(n: nat): (u: nat)
    ensures u > 0
  {
    if n < TwoTo53 then 1
    else if n < 2 * TwoTo53 then 2
    else if n < 4 * TwoTo53 then 4
    else if n < 8 * TwoTo53 then 8
    else if n < 16 * TwoTo53 then 16
    else if n < 32 * TwoTo53 then 32
    else if n < 64 * TwoTo53 then 64
    else if n < 128 * TwoTo53 then 128
    else if n < 256 * TwoTo53 then 256
    else if n < 512 * TwoTo53 then 512
    else if n < 1024 * TwoTo53 then 1024
    else 2048
  }

  /** Round to the nearest multiple of `u`, ties to the even one. */
  function RoundTo(n: nat, u: nat): nat
    requires u > 0
  {
    var q, r := n / u, n % u;
    if 2 * r < u || (2 * r == u && q % 2 == 0) then q * u else (q + 1) * u
  }

  function Rounded(n: nat): nat {
    RoundTo(n, Ulp(n))
  }

  /** A non-negative integer is a float64 exactly if it is a multiple of the distance around it. */
  lemma RoundedExact(n: nat)
    ensures Rounded(n) == n <==> n % Ulp(n) == 0
  {
    var u := Ulp(n);
    var q, r := n / u, n % u;
    assert n == q * u + r;
    assert (q + 1) * u == q * u + u;
  }

  // ----- quotients

  lemma Quotient(n: nat, q: nat, u: nat, r: nat)
    requires n == q * u + r && r < u
    ensures n / u == q && n % u == r
  {
    var k, j := n / u, n % u;
    assert k * u + j == q * u + r;
    SameQuotient(k, j, q, r, u);
  }

  lemma SameQuotient(k: nat, j: nat, q: nat, r: nat, u: nat)
    requires k * u + j == q * u + r && j < u && r < u
    ensures k == q && j == r
  {
    assert k < q ==> (k + 1) * u <= q * u;
    assert q < k ==> (q + 1) * u <= k * u;
  }

  lemma Times(a: nat, b: nat, u: nat)
    requires a <= b
    ensures a * u <= b * u
  {
    assert b * u == a * u + (b - a) * u;
  }

  // ----- rounding next to a multiple, and within an octave

  /** One above a multiple of `u`, and one below the next. */
  lemma NextToMultiple(q: nat, u: nat)
    requires u >= 3
    ensures RoundTo(q * u + 1, u) == q * u
    ensures RoundTo(q * u + (u - 1), u) == (q + 1) * u
  {
    Quotient(q * u + 1, q, u, 1);
    Quotient(q * u + (u - 1), q, u, u - 1);
  }

  /** Rounding gives a multiple, and does not leave the octave. */
  lemma RoundToRange(n: nat, u: nat, low: nat, high: nat)
    requires u > 0 && low * u <= n < high * u
    ensures RoundTo(n, u) % u == 0 && low * u <= RoundTo(n, u) <= high * u
  {
    var q, r := n / u, n % u;
    assert n == q * u + r;
    RoundToEither(n, u, q, r);
    var k := if RoundTo(n, u) == q * u then q else q + 1;
    hide RoundTo;
    Quotient(k * u, k, u, 0);
    Between(low, q, high, u, r);
  }

  lemma RoundToEither(n: nat, u: nat, q: nat, r: nat)
    requires u > 0 && q == n / u && r == n % u
    ensures RoundTo(n, u) == q * u || RoundTo(n, u) == (q + 1) * u
  {
  }

  lemma Between(low: nat, q: nat, high: nat, u: nat, r: nat)
    requires low * u <= q * u + r < high * u && r < u
    ensures low * u <= q * u && (q + 1) * u <= high * u
  {
    assert (q + 1) * u == q * u + u;
    assert low <= q by { if q < low { Times(q + 1, low, u); } }
    assert q < high by { if high <= q { Times(high, q, u); } }
    Times(low, q, u);
    Times(q + 1, high, u);
  }

  lemma UlpRange(n: nat)
    requires n >= 2 * TwoTo53
    ensures Ulp(n) in {4, 8, 16, 32, 64, 128, 256, 512, 1024, 2048}
    ensures TwoTo52 * Ulp(n) <= n && (Ulp(n) < 2048 ==> n < TwoTo53 * Ulp(n))
  {
    if n < 4 * TwoTo53 {
    } else if n < 8 * TwoTo53 {
    } else if n < 16 * TwoTo53 {
    } else if n < 32 * TwoTo53 {
    } else if n < 64 * TwoTo53 {
    } else if n < 128 * TwoTo53 {
    } else if n < 256 * TwoTo53 {
    } else if n < 512 * TwoTo53 {
    } else if n < 1024 * TwoTo53 {
    }
  }

  lemma UlpAfter(m: nat)
    requires m >= 2 * TwoTo53 && m % Ulp(m) == 0
    ensures Ulp(m + 1) == Ulp(m)
  {
  }

  lemma UlpBefore(n: nat)
    requires n > 2 * TwoTo53 && n % Ulp(n) == 0
    ensures Ulp(n - 1) >= 4 && n % Ulp(n - 1) == 0
  {
  }

  lemma FloatInOctave(m: nat, u: nat)
    requires u in {4, 8, 16, 32, 64, 128, 256, 512, 1024, 2048} && m % u == 0
    requires TwoTo52 * u <= m && (u < 2048 ==> m <= TwoTo53 * u)
    ensures m >= 2 * TwoTo53 && m % Ulp(m) == 0
  {
    if u == 4 {
    } else if u == 8 {
    } else if u == 16 {
    } else if u == 32 {
    } else if u == 64 {
    } else if u == 128 {
    } else if u == 256 {
    } else if u == 512 {
    } else if u == 1024 {
    }
  }

  /** What rounding yields, float64 can hold. */
  lemma RoundedHolds(n: nat)
    requires n >= 2 * TwoTo53
    ensures Rounded(n) >= 2 * TwoTo53 && Rounded(n) % Ulp(Rounded(n)) == 0
  {
    UlpRange(n);
    var u := Ulp(n);
    hide Ulp, RoundTo;
    RoundToRange(n, u, TwoTo52, if u < 2048 then TwoTo53 else n + 1);
    FloatInOctave(Rounded(n), u);
  }

  lemma RoundedAfter(m: nat)
    requires m >= 2 * TwoTo53 && m % Ulp(m) == 0
    ensures Rounded(m + 1) == m
  {
    UlpAfter(m);
    UlpRange(m);
    hide Ulp, RoundTo;
    var u := Ulp(m);
    var q := m / u;
    assert m == q * u;
    NextToMultiple(q, u);
  }

  lemma RoundedBefore(n: nat)
    requires n > 2 * TwoTo53 && n % Ulp(n) == 0
    ensures Rounded(n - 1) == n
  {
    UlpBefore(n);
    hide Ulp, RoundTo;
    var u := Ulp(n - 1);
    var q := n / u;
    assert n == q * u;
    assert (q - 1) * u == q * u - u;
    NextToMultiple(q - 1, u);
  }

  // ----- the integers above 2^54

  lemma LargeNegatives(n: nat)
    requires n > 2 * TwoTo53
    ensures Rounded(Rounded(n - 1) + 1) == n <==> n % Ulp(n) == 0
  {
    hide Rounded;
    RoundedHolds(n - 1);
    RoundedAfter(Rounded(n - 1));
    if n % Ulp(n) == 0 { RoundedBefore(n); }
  }

  // ----- those up to 2^54

  /** Rounding to even numbers: an odd one goes to the neighbour that is a multiple of four. */
  lemma RoundToEven(q: nat)
    ensures RoundTo(2 * q, 2) == 2 * q
    ensures RoundTo(2 * q + 1, 2) == 2 * (if q % 2 == 0 then q else q + 1)
  {
    Quotient(2 * q, q, 2, 0);
    Quotient(2 * q + 1, q, 2, 1);
  }

  lemma UlpTwo(n: nat)
    ensures n < TwoTo53 ==> Ulp(n) == 1
    ensures TwoTo53 <= n < 2 * TwoTo53 ==> Ulp(n) == 2
  {
  }

  lemma EvenRounded(q: nat)
    requires TwoTo53 <= 2 * q < 2 * TwoTo53
    ensures Rounded(2 * q) == 2 * q
    ensures Rounded(2 * q + 1) == 2 * (if q % 2 == 0 then q else q + 1)
  {
    UlpTwo(2 * q);
    UlpTwo(2 * q + 1);
    hide Ulp, RoundTo;
    RoundToEven(q);
  }

  lemma AfterTwoTo54()
    ensures Rounded(2 * TwoTo53 + 1) == 2 * TwoTo53
  {
    RoundedAfter(2 * TwoTo53);
  }

  lemma TwoApart(q: nat, j: nat)
    requires TwoTo53 <= 2 * q + j < 2 * TwoTo53 && j < 2
    ensures Rounded(Rounded(2 * q + j) + 1) == 2 * q + j + 1 <==> j == 1 && q % 2 == 1
  {
    hide Rounded, Ulp;
    EvenRounded(q);
    if j == 1 && q % 2 == 1 {
      if q + 1 < TwoTo53 { EvenRounded(q + 1); } else { AfterTwoTo54(); }
    }
  }

  lemma UpTo53(n: nat)
    requires 0 < n <= TwoTo53
    ensures Rounded(Rounded(n - 1) + 1) == n
  {
    UlpTwo(n - 1);
    if n < TwoTo53 {
      UlpTwo(n);
      hide Ulp;
    }
  }

  lemma ByFour(n: nat)
    requires n > 0
    ensures n % 4 == 0 <==> (n - 1) % 2 == 1 && ((n - 1) / 2) % 2 == 1
  {
  }

  lemma SmallNegatives(n: nat)
    requires 0 < n <= 2 * TwoTo53
    ensures Rounded(Rounded(n - 1) + 1) == n <==> n <= TwoTo53 || n % 4 == 0
  {
    hide Rounded;
    if n <= TwoTo53 {
      UpTo53(n);
    } else {
      ByFour(n);
      var q, j := (n - 1) / 2, (n - 1) % 2;
      TwoApart(q, j);
      assert n == 2 * q + j + 1;
    }
  }

  /**
   `-float64(t) - 1` gives back `-n` exactly if float64 can hold `n`; but between 2^53 and 2^54 it loses every other even
   one, because there `t` is rounded to an even number first.
   */
  lemma NegativeGivenBack(n: nat)
    requires n > 0
    ensures Rounded(Rounded(n - 1) + 1) == n <==> if TwoTo53 < n < 2 * TwoTo53 then n % 4 == 0 else n % Ulp(n) == 0
  {
    hide Rounded;
    if n > 2 * TwoTo53 { LargeNegatives(n); } else { SmallNegatives(n); }
  }
}
