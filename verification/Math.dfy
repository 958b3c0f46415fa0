/** Fixed-point arithmetic of `crates/common/src/math.rs`, and the rounding
    facts every other module rests on. */
module Math {

  const I128_MAX := 0x7fff_ffff_ffff_ffff_ffff_ffff_ffff_ffff
  const U256_LIMIT := I128_MAX * I128_MAX * 4 + I128_MAX * 8 + 4 // 2^256
  const ONE: nat := 1_000_000_000_000_000_000
  const BPS: nat := 10_000
  const RATE_SCALE: nat := 100
  const DENOM: nat := BPS * RATE_SCALE * 86_400

  datatype Option<+T> = None | Some(value: T)

  datatype MathError = Domain | Overflow
  datatype Result = Ok(value: int) | Err(error: MathError)

  function Min(a: int, b: int): int { if a < b then a else b }
  function Max(a: int, b: int): int { if a < b then b else a }

  /** Balance maps default to zero. */
  function Get<K>(m: map<K, int>, k: K): int { if k in m then m[k] else 0 }

  /** `a * b / d`, rounded down. */
  function Floor(a: nat, b: nat, d: nat): (q: nat)
    requires d > 0
    ensures q * d <= a * b < (q + 1) * d
  {
    DivMod(a * b, d);
    a * b / d
  }

  /** `a * b / d`, rounded up. */
  function Ceil(a: nat, b: nat, d: nat): (q: nat)
    requires d > 0
    ensures (q - 1) * d < a * b <= q * d
  {
    DivMod(a * b + d - 1, d);
    (a * b + d - 1) / d
  }

  lemma DivMod(n: nat, d: nat)
    requires d > 0
    ensures 0 <= n / d && n / d * d <= n < (n / d + 1) * d
  {
    assert n == n / d * d + n % d;
  }

  /** The contract's `mul_div_round`: a 256-bit numerator, a 128-bit signed result. */
  function MulDivRound(a: int, b: int, d: int, ceil: bool): (r: Result)
    ensures r == Err(Domain) <==> a < 0 || b < 0 || d <= 0
    ensures r.Ok? ==> 0 <= r.value <= I128_MAX
  {
    if a < 0 || b < 0 || d <= 0 then Err(Domain)
    else
      DivMod(a * b, d);
      DivMod(a * b + d - 1, d);
      var v := if ceil then (a * b + d - 1) / d else a * b / d;
      if v <= I128_MAX then Ok(v) else Err(Overflow)
  }

  lemma MulMono(a: int, b: int, c: int)
    requires a <= b && c >= 0
    ensures a * c <= b * c
  {}

  lemma MulPos(a: int, b: int)
    requires a >= 0 && b >= 0
    ensures a * b >= 0
  {}

  /** With 128-bit operands no intermediate leaves 256 bits, so `mul_div` fails
      only for a bad sign or a quotient that does not fit; otherwise it is the
      exact floor, `mul_div_ceil` the exact ceiling, and the two differ by
      whether `d` divides the product. */
  lemma MulDivExact(a: int, b: int, d: int)
    requires 0 <= a <= I128_MAX && 0 <= b <= I128_MAX && 0 < d <= I128_MAX
    ensures a * b + d < U256_LIMIT
    ensures MulDivRound(a, b, d, false) == (if Floor(a, b, d) <= I128_MAX then Ok(Floor(a, b, d)) else Err(Overflow))
    ensures MulDivRound(a, b, d, true) == (if Ceil(a, b, d) <= I128_MAX then Ok(Ceil(a, b, d)) else Err(Overflow))
    ensures Ceil(a, b, d) == Floor(a, b, d) + (if Floor(a, b, d) * d == a * b then 0 else 1)
  {
    MulMono(a, I128_MAX, b);
    MulMono(b, I128_MAX, I128_MAX);
    var f := Floor(a, b, d);
    if f * d == a * b {
      CeilUnique(f, a, b, d);
    } else {
      assert (f + 1 - 1) * d < a * b <= (f + 1) * d;
      CeilUnique(f + 1, a, b, d);
    }
  }

  /** A quotient is pinned down by its bracket. */
  lemma Bracket(p: int, q: int, d: int)
    requires d > 0 && p * d < (q + 1) * d
    ensures p <= q
  {
    if p >= q + 1 { MulMono(q + 1, p, d); }
  }

  lemma FloorUnique(q: int, a: nat, b: nat, d: nat)
    requires d > 0 && q * d <= a * b < (q + 1) * d
    ensures Floor(a, b, d) == q
  {
    Bracket(q, Floor(a, b, d), d);
    Bracket(Floor(a, b, d), q, d);
  }

  lemma CeilUnique(q: int, a: nat, b: nat, d: nat)
    requires d > 0 && (q - 1) * d < a * b <= q * d
    ensures Ceil(a, b, d) == q
  {
    var c := Ceil(a, b, d);
    assert (q - 1) * d < (c - 1 + 1) * d;
    Bracket(q - 1, c - 1, d);
    if q - 1 == c - 1 {} else { assert q - 1 <= c - 2; }
    assert (c - 1) * d < (q - 1 + 1) * d;
    Bracket(c - 1, q - 1, d);
  }

  /** The largest integer below a product bound. */
  lemma FloorMax(q: int, a: nat, b: nat, d: nat)
    requires d > 0 && q * d <= a * b
    ensures q <= Floor(a, b, d)
  {
    Bracket(q, Floor(a, b, d), d);
  }

  /** The smallest integer above a product bound. */
  lemma CeilMin(q: int, a: nat, b: nat, d: nat)
    requires d > 0 && a * b <= q * d
    ensures Ceil(a, b, d) <= q
  {
    var c := Ceil(a, b, d);
    assert (c - 1) * d < (q - 1 + 1) * d;
    Bracket(c - 1, q - 1, d);
  }

  lemma FloorMono(a: nat, a': nat, b: nat, d: nat)
    requires d > 0 && a <= a'
    ensures Floor(a, b, d) <= Floor(a', b, d)
  {
    MulMono(a, a', b);
    FloorMax(Floor(a, b, d), a', b, d);
  }

  /** Splitting loses at floors and gains at ceilings. */
  lemma FloorSplit(a: nat, a': nat, b: nat, d: nat)
    requires d > 0
    ensures Floor(a, b, d) + Floor(a', b, d) <= Floor(a + a', b, d) <= Floor(a, b, d) + Floor(a', b, d) + 1
  {
    var p, q, s := Floor(a, b, d), Floor(a', b, d), Floor(a + a', b, d);
    assert (a + a') * b == a * b + a' * b;
    assert (p + q) * d == p * d + q * d;
    FloorMax(p + q, a + a', b, d);
    assert s * d < (p + q + 1 + 1) * d by {
      assert (p + q + 1 + 1) * d == (p + 1) * d + (q + 1) * d;
    }
    Bracket(s, p + q + 1, d);
  }

  lemma CeilSplit(a: nat, a': nat, b: nat, d: nat)
    requires d > 0
    ensures Ceil(a + a', b, d) <= Ceil(a, b, d) + Ceil(a', b, d)
  {
    var p, q := Ceil(a, b, d), Ceil(a', b, d);
    assert (a + a') * b == a * b + a' * b;
    assert (p + q) * d == p * d + q * d;
    CeilMin(p + q, a + a', b, d);
  }

  /** A share of the whole at full weight is the whole. */
  lemma FloorWhole(a: nat, d: nat)
    requires d > 0
    ensures Floor(d, a, d) == a && Floor(a, d, d) == a && Ceil(d, a, d) == a
  {
    assert a * d == d * a;
    assert (a + 1) * d == a * d + d && (a - 1) * d == a * d - d;
    FloorUnique(a, d, a, d);
    FloorUnique(a, a, d, d);
    CeilUnique(a, d, a, d);
  }

  /** A fraction no greater than one never exceeds its base. */
  lemma FloorAtMost(a: nat, b: nat, d: nat)
    requires d > 0 && b <= d
    ensures Floor(a, b, d) <= a
  {
    MulMono(b, d, a);
    assert Floor(a, b, d) * d < (a + 1) * d by { assert (a + 1) * d == a * d + d; }
    Bracket(Floor(a, b, d), a, d);
  }
}
