/** The JavaScript number operations the program uses, stated on exact integers and reals. */
module Num {

  function Max(a: int, b: int): int { if a >= b then a else b }

  function Min(a: int, b: int): int { if a <= b then a else b }

  function MaxReal(a: real, b: real): real { if a >= b then a else b }

  function MinReal(a: real, b: real): real { if a <= b then a else b }

  /** `Math.round(x)`: the nearest integer, a half rounded towards +infinity. */
  function Round(x: real): (r: int)
    ensures x - 0.5 < r as real <= x + 0.5
  {
    (x + 0.5).Floor
  }

  /** `Math.ceil(a / b)` for a positive divisor (Dafny's own `/` is Euclidean). */
  function CeilDiv(a: int, b: int): (r: int)
    requires b > 0
    ensures (r - 1) * b < a <= r * b
  {
    var q := (-a) / b;
    assert -a == b * q + (-a) % b;
    -q
  }

  /** A whole number of divisors divides exactly: `Math.ceil(k * b / b)` is `k`. */
  lemma {:induction false} CeilDivOfMultiple(k: int, b: int)
    requires b > 0
    ensures CeilDiv(k * b, b) == k
  {
    var r := CeilDiv(k * b, b);
    var d := r - k;
    assert r * b - b < k * b <= r * b;
    assert d * b == r * b - k * b;
    SignOfProduct(d, b);
    SignOfProduct(d - 1, b);
  }

  /** A product with a positive factor has the sign of the other factor. */
  lemma {:induction false} SignOfProduct(x: int, b: int)
    requires b > 0
    ensures x >= 0 <==> x * b >= 0
    ensures (x - 1) * b == x * b - b
  {
  }

  /**
   * `Math.max(0, Math.ceil((endsAt - now) / 1000))`: the whole seconds left
   * before a deadline in ms, rounded up, never below 0.
   */
  function SecondsLeft(endsAt: int, now: int): (r: nat)
    ensures now >= endsAt ==> r == 0
    ensures now < endsAt ==> r > 0 && (r - 1) * 1000 < endsAt - now <= r * 1000
  {
    Max(0, CeilDiv(endsAt - now, 1000))
  }

  /** The seconds left never grow as the clock advances. */
  lemma {:induction false} SecondsLeftMonotone(endsAt: int, now: int, later: int)
    requires now <= later
    ensures SecondsLeft(endsAt, later) <= SecondsLeft(endsAt, now)
  {
    if later < endsAt {
      var a, b := SecondsLeft(endsAt, now), SecondsLeft(endsAt, later);
      assert (b - 1) * 1000 < endsAt - later <= endsAt - now <= a * 1000;
      assert (b - 1 - a) * 1000 < 0;
    }
  }

  /** `Math.round(x * 10) / 10`: a value shown with one decimal. */
  function RoundTenth(x: real): (r: real)
    ensures x - 0.05 < r <= x + 0.05
  {
    Round(x * 10.0) as real / 10.0
  }

  lemma {:induction false} RoundMonotone(x: real, y: real)
    requires x <= y
    ensures Round(x) <= Round(y)
  {
    assert (x + 0.5).Floor as real <= x + 0.5 <= y + 0.5 < (y + 0.5).Floor as real + 1.0;
  }

  lemma {:induction false} RoundOfInt(n: int)
    ensures Round(n as real) == n
  {
  }
}
