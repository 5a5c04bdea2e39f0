/** The round statistics of src/lib/stats.ts, on exact reals. */
module Stats {
  import Num

  /** The speed `chars` characters in `ms` milliseconds stand for, in five-character words per minute. */
  function ExactWpm(chars: nat, ms: int): real
    requires ms > 0
  {
    (chars as real / 5.0) / (ms as real / 60000.0)
  }

  /** `computeWPM`: words per minute to one decimal, 0 when no time has passed. */
  function ComputeWpm(chars: nat, ms: int): (r: real)
    ensures ms <= 0 ==> r == 0.0
    ensures r >= 0.0
    ensures ms > 0 ==> ExactWpm(chars, ms) - 0.05 < r <= ExactWpm(chars, ms) + 0.05
  {
    if ms <= 0 then 0.0
    else
      var w := ExactWpm(chars, ms);
      assert w >= 0.0;
      Num.MaxReal(0.0, Num.RoundTenth(w))
  }

  /** More characters in the same time never lower the reported speed. */
  lemma {:induction false} WpmMonotoneInChars(c1: nat, c2: nat, ms: int)
    requires c1 <= c2
    ensures ComputeWpm(c1, ms) <= ComputeWpm(c2, ms)
  {
    if ms > 0 {
      var w1 := ExactWpm(c1, ms);
      var w2 := ExactWpm(c2, ms);
      assert w1 <= w2 by {
        assert w1 == c1 as real * 12000.0 / ms as real;
        assert w2 == c2 as real * 12000.0 / ms as real;
      }
      Num.RoundMonotone(w1 * 10.0, w2 * 10.0);
    }
  }

  /** `computeAccuracy`: the percentage of keystrokes that were not mistakes, to one decimal. */
  function ComputeAccuracy(keystrokes: int, mistakes: nat): (r: real)
    ensures keystrokes <= 0 ==> r == 100.0
    ensures 0.0 <= r <= 100.0
    ensures keystrokes > 0 && mistakes >= keystrokes ==> r == 0.0
    ensures keystrokes > 0 ==>
              var exact := Num.Max(0, keystrokes - mistakes) as real / keystrokes as real * 100.0;
              exact - 0.05 < r <= exact + 0.05
  {
    if keystrokes <= 0 then 100.0
    else
      var correct := Num.Max(0, keystrokes - mistakes);
      var acc := correct as real / keystrokes as real * 100.0;
      assert 0.0 <= acc <= 100.0 by {
        FractionAtMostOne(correct as real, keystrokes as real);
      }
      Num.RoundTenth(acc)
  }

  lemma FractionAtMostOne(x: real, k: real)
    requires 0.0 <= x <= k && k > 0.0
    ensures 0.0 <= x / k <= 1.0
  {
    var q := x / k;
    assert q * k == x;
    assert (1.0 - q) * k == k - x;
  }

  /** `progressRatio`: the typed fraction of the target, kept within [0, 1]. */
  function ProgressRatio(inputLen: int, targetLen: int): (r: real)
    ensures 0.0 <= r <= 1.0
    ensures targetLen <= 0 ==> r == 0.0
    ensures targetLen > 0 && inputLen >= targetLen ==> r == 1.0
    ensures targetLen > 0 && 0 <= inputLen <= targetLen ==> r * targetLen as real == inputLen as real
  {
    if targetLen <= 0 then 0.0
    else Num.MinReal(1.0, Num.MaxReal(0.0, inputLen as real / targetLen as real))
  }
}
