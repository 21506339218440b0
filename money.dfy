/** `Math.round` on amounts, modelled on exact reals: floor(x + 1/2). */
module Money {

  function Round(x: real): (r: int)
    ensures x - 0.5 < r as real <= x + 0.5
  {
    (x + 0.5).Floor
  }

  /** An amount in minor units (cents): `Math.round(amount * 100)`. */
  function Cents(amount: real): (r: int)
    ensures amount * 100.0 - 0.5 < r as real <= amount * 100.0 + 0.5
  {
    Round(amount * 100.0)
  }

  /** Whole numbers round to themselves. */
  lemma RoundWhole(n: int)
    ensures Round(n as real) == n
  {
  }

  /** The cents amount is positive exactly when the amount is at least half a cent. */
  lemma CentsPositiveIff(amount: real)
    ensures Cents(amount) > 0 <==> amount >= 0.005
  {
  }

  /** Rounding is monotone. */
  lemma RoundMonotone(x: real, y: real)
    requires x <= y
    ensures Round(x) <= Round(y)
  {
  }

  /** `p * n` for a whole number `n`, spelled out as repeated addition. */
  function Times(p: real, n: int): real
    decreases if n < 0 then -n else n
  {
    if n == 0 then 0.0
    else if n > 0 then Times(p, n - 1) + p
    else Times(p, n + 1) - p
  }

  lemma {:induction false} TimesIsProduct(p: real, n: int)
    ensures Times(p, n) == p * (n as real)
    decreases if n < 0 then -n else n
  {
    if n > 0 {
      TimesIsProduct(p, n - 1);
    } else if n < 0 {
      TimesIsProduct(p, n + 1);
    }
  }

  /** Multiplication distributes over a sum of quantities. */
  lemma TimesAdd(p: real, q: int, d: int)
    ensures Times(p, q + d) == Times(p, q) + Times(p, d)
  {
    TimesIsProduct(p, q + d);
    TimesIsProduct(p, q);
    TimesIsProduct(p, d);
    assert p * ((q + d) as real) == p * (q as real) + p * (d as real);
  }
}
