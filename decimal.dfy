/**
 * Decimal rounding on exact reals: the idealised meaning of
 * `Number(x.toFixed(places))`, i.e. the multiple of 10^-places nearest to x,
 * ties away from zero (toFixed rounds the magnitude and keeps the sign).
 */
module Decimal {

  function Pow10(n: nat): (p: nat)
    ensures p >= 1
  {
    if n == 0 then 1 else 10 * Pow10(n - 1)
  }

  /** The step between two neighbouring values with `places` decimals. */
  function Ulp(places: nat): (u: real)
    ensures 0.0 < u <= 1.0
  {
    1.0 / Pow10(places) as real
  }

  /** k steps of 10^-places. */
  function Steps(k: int, places: nat): real
  {
    k as real / Pow10(places) as real
  }

  /** x is written with at most `places` decimals. */
  ghost predicate HasPlaces(x: real, places: nat)
  {
    exists k: int {:trigger Steps(k, places)} :: x == Steps(k, places)
  }

  /** Rounds a non-negative x half-up to a whole number of steps. */
  function RoundMagnitude(x: real, places: nat): (r: real)
    requires x >= 0.0
    ensures 0.0 <= r
    ensures x == 0.0 ==> r == 0.0
    ensures x - Ulp(places) / 2.0 < r <= x + Ulp(places) / 2.0
    ensures HasPlaces(r, places)
  {
    var s := Pow10(places) as real;
    var k := (x * s + 0.5).Floor;
    ScaleBack(x, s, k);
    Steps(k, places)
  }

  /** From `k <= x*s + 1/2 < k + 1` to the bounds on `k/s`. */
  lemma ScaleBack(x: real, s: real, k: int)
    requires x >= 0.0 && s >= 1.0
    requires k as real <= x * s + 0.5 < k as real + 1.0
    ensures 0.0 <= k as real / s
    ensures x - (1.0 / s) / 2.0 < k as real / s <= x + (1.0 / s) / 2.0
    ensures x == 0.0 ==> k == 0
  {
    var q := k as real / s;
    assert q * s == k as real;
    assert x * s - 0.5 < q * s <= x * s + 0.5;
    assert (x - (1.0 / s) / 2.0) * s == x * s - 0.5;
    assert (x + (1.0 / s) / 2.0) * s == x * s + 0.5;
    assert k >= 0 by {
      assert x * s + 0.5 > 0.0;
    }
  }

  /**
   * Number(x.toFixed(places)) on exact reals. The strict bounds settle a tie:
   * halfway between two neighbours, the one of larger magnitude is taken.
   */
  function RoundTo(x: real, places: nat): (r: real)
    ensures x - Ulp(places) / 2.0 <= r <= x + Ulp(places) / 2.0
    ensures x >= 0.0 ==> x - Ulp(places) / 2.0 < r
    ensures x <= 0.0 ==> r < x + Ulp(places) / 2.0
    ensures HasPlaces(r, places)
    ensures x >= 0.0 ==> r >= 0.0
    ensures x <= 0.0 ==> r <= 0.0
    ensures x == 0.0 ==> r == 0.0
  {
    if x >= 0.0 then RoundMagnitude(x, places)
    else
      var m := RoundMagnitude(-x, places);
      NegatePlaces(m, places);
      -m
  }

  /** Ties are taken away from zero: 2.5 and -2.5 round to 3 and -3, 0.125 to 0.13. */
  lemma TiesAwayFromZero()
    ensures RoundTo(2.5, 0) == 3.0 && RoundTo(-2.5, 0) == -3.0
    ensures RoundTo(0.125, 2) == 0.13
  {
    assert (2.5 * 1.0 + 0.5).Floor == 3;
    assert (0.125 * 100.0 + 0.5).Floor == 13;
  }

  lemma NegatePlaces(x: real, places: nat)
    requires HasPlaces(x, places)
    ensures HasPlaces(-x, places)
  {
    var k: int :| x == Steps(k, places);
    assert -x == Steps(-k, places);
  }
}
