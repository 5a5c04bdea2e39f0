/** The adaptive difficulty target of src/lib/difficulty.ts. */
module Difficulty {
  import opened Wrappers
  import opened Types
  import Num

  /** `clamp(n, min, max)`: `max(min, min(max, n))`. */
  function Clamp(n: int, lo: int, hi: int): (r: int)
    ensures lo <= hi ==> lo <= r <= hi
    ensures lo <= n <= hi ==> r == n
    ensures n < lo ==> r == lo
    ensures lo <= hi && hi < n ==> r == hi
  {
    Num.Max(lo, Num.Min(hi, n))
  }

  lemma {:induction false} ClampMonotone(m: int, n: int, lo: int, hi: int)
    requires m <= n
    ensures Clamp(m, lo, hi) <= Clamp(n, lo, hi)
  {
  }

  const MinTarget: int := 100
  const MaxTarget: int := 2000
  /** The speed and accuracy at which the target stays put. */
  const NeutralWpm: real := 45.0
  const NeutralAccuracy: real := 95.0

  /** `updateDifficultyTarget`: move the target by 4 per WPM and 6 per accuracy point off 45 / 95. */
  function UpdateDifficultyTarget(current: int, wpm: real, accuracy: real): (r: int)
    ensures MinTarget <= r <= MaxTarget
  {
    var delta := (wpm - NeutralWpm) * 4.0 + (accuracy - NeutralAccuracy) * 6.0;
    Clamp(Num.Round(current as real + delta), MinTarget, MaxTarget)
  }

  /** At 45 WPM and 95% accuracy an in-range target is returned unchanged. */
  lemma {:induction false} NeutralRoundKeepsTarget(current: int)
    requires MinTarget <= current <= MaxTarget
    ensures UpdateDifficultyTarget(current, NeutralWpm, NeutralAccuracy) == current
  {
    Num.RoundOfInt(current);
  }

  /** A faster or more accurate round never lowers the new target. */
  lemma {:induction false} UpdateMonotone(current: int, wpm1: real, wpm2: real, acc1: real, acc2: real)
    requires wpm1 <= wpm2 && acc1 <= acc2
    ensures UpdateDifficultyTarget(current, wpm1, acc1) <= UpdateDifficultyTarget(current, wpm2, acc2)
  {
    var d1 := (wpm1 - NeutralWpm) * 4.0 + (acc1 - NeutralAccuracy) * 6.0;
    var d2 := (wpm2 - NeutralWpm) * 4.0 + (acc2 - NeutralAccuracy) * 6.0;
    Num.RoundMonotone(current as real + d1, current as real + d2);
    ClampMonotone(Num.Round(current as real + d1), Num.Round(current as real + d2), MinTarget, MaxTarget);
  }

  /** A prompt's score: its distance from the target plus its jitter. */
  function Score(p: Prompt, target: int, jitter: real): (r: real)
    ensures r >= jitter
    ensures r == jitter <==> p.difficulty == target
  {
    (if p.difficulty >= target then p.difficulty - target else target - p.difficulty) as real + jitter
  }

  /** The index of the first smallest score from `from` on (the head of a stable ascending sort). */
  function FirstLowest(prompts: seq<Prompt>, target: int, jitter: seq<real>, from: nat): (k: nat)
    requires |jitter| == |prompts| && from < |prompts|
    ensures from <= k < |prompts|
    ensures forall j :: from <= j < |prompts| ==> Score(prompts[k], target, jitter[k]) <= Score(prompts[j], target, jitter[j])
    ensures forall j :: from <= j < k ==> Score(prompts[j], target, jitter[j]) > Score(prompts[k], target, jitter[k])
    decreases |prompts| - from
  {
    if from == |prompts| - 1 then from
    else
      var k := FirstLowest(prompts, target, jitter, from + 1);
      if Score(prompts[from], target, jitter[from]) <= Score(prompts[k], target, jitter[k]) then from else k
  }

  /**
   * `pickNextPrompt`: the prompt closest to the target once each score gets its
   * jitter (`Math.random() * 5`, here the parameter `jitter`); the first one on ties.
   */
  function PickNextPrompt(prompts: seq<Prompt>, target: int, jitter: seq<real>): (r: Option<Prompt>)
    requires |jitter| == |prompts|
    ensures r.None? <==> |prompts| == 0
    ensures r.Some? ==> exists k :: 0 <= k < |prompts| && r.value == prompts[k]
                          && forall j :: 0 <= j < |prompts| ==> Score(prompts[k], target, jitter[k]) <= Score(prompts[j], target, jitter[j])
  {
    if |prompts| == 0 then None
    else
      var k := FirstLowest(prompts, target, jitter, 0);
      Some(prompts[k])
  }
}
