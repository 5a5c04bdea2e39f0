/**
 * The per-prompt time limit of src/utils/timeLimit.ts. The per-character
 * seconds (0.5, 0.4, 0.3) are held as exact tenths of a second.
 */
module TimeLimit {
  import opened Wrappers
  import opened Types
  import Num

  /** A row of `timeLimitPresets`: tenths of a second per romaji character, and the cap in seconds. */
  datatype Preset = Preset(perCharTenths: nat, maxSeconds: nat)

  function PresetOf(mode: Mode): (p: Preset)
    ensures 3 <= p.perCharTenths <= 5 && 20 <= p.maxSeconds <= 45
    ensures mode == Easy <==> p.perCharTenths == 5
  {
    match mode
    case Easy => Preset(5, 45)
    case Normal => Preset(4, 34)
    case Hard => Preset(3, 20)
  }

  /** The uncapped limit in tenths of a second. */
  function RawTenths(romaji: string, mode: Mode): (r: nat)
    ensures 3 * |romaji| <= r <= 5 * |romaji|
    ensures r == 0 <==> romaji == []
  {
    |romaji| * PresetOf(mode).perCharTenths
  }

  /**
   * `getTimeLimitSeconds`: the romaji length times the mode's seconds per
   * character, capped at the mode's maximum and rounded to the nearest second
   * (a half rounds up). An absent mode is "easy".
   */
  function GetTimeLimitSeconds(prompt: Prompt, mode: Option<Mode>): (r: nat)
    ensures r <= PresetOf(mode.GetOr(Easy)).maxSeconds
    ensures var capped := Num.Min(PresetOf(mode.GetOr(Easy)).maxSeconds * 10, RawTenths(prompt.romaji, mode.GetOr(Easy)));
            capped - 5 < r * 10 <= capped + 5
  {
    var m := mode.GetOr(Easy);
    var p := PresetOf(m);
    var tenths := Num.Min(p.maxSeconds * 10, RawTenths(prompt.romaji, m));
    (tenths + 5) / 10
  }

  /** A prompt with empty romaji gets no time at all, in every mode. */
  lemma {:induction false} EmptyRomajiGetsZero(prompt: Prompt, mode: Option<Mode>)
    requires prompt.romaji == ""
    ensures GetTimeLimitSeconds(prompt, mode) == 0
  {
  }

  /** The limit reads only the romaji's length: not the text, not the difficulty. */
  lemma {:induction false} OnlyLengthMatters(p: Prompt, q: Prompt, mode: Option<Mode>)
    requires |p.romaji| == |q.romaji|
    ensures GetTimeLimitSeconds(p, mode) == GetTimeLimitSeconds(q, mode)
  {
  }

  /** A longer romaji never gets less time. */
  lemma {:induction false} LongerGetsNoLess(p: Prompt, q: Prompt, mode: Option<Mode>)
    requires |p.romaji| <= |q.romaji|
    ensures GetTimeLimitSeconds(p, mode) <= GetTimeLimitSeconds(q, mode)
  {
    var m := mode.GetOr(Easy);
    assert RawTenths(p.romaji, m) <= RawTenths(q.romaji, m) by {
      MulMonotone(|p.romaji|, |q.romaji|, PresetOf(m).perCharTenths);
    }
  }

  lemma MulMonotone(a: nat, b: nat, c: nat)
    requires a <= b
    ensures a * c <= b * c
  {
  }

  /** For the same prompt, hard gives no more time than normal, and normal no more than easy. */
  lemma {:induction false} HarderGetsNoMore(prompt: Prompt)
    ensures GetTimeLimitSeconds(prompt, Some(Hard)) <= GetTimeLimitSeconds(prompt, Some(Normal))
    ensures GetTimeLimitSeconds(prompt, Some(Normal)) <= GetTimeLimitSeconds(prompt, Some(Easy))
  {
    var n := |prompt.romaji|;
    assert RawTenths(prompt.romaji, Hard) == n * 3 <= n * 4 == RawTenths(prompt.romaji, Normal);
    assert RawTenths(prompt.romaji, Normal) == n * 4 <= n * 5 == RawTenths(prompt.romaji, Easy);
  }

  /** The mode defaults to easy. */
  lemma {:induction false} DefaultIsEasy(prompt: Prompt)
    ensures GetTimeLimitSeconds(prompt, None) == GetTimeLimitSeconds(prompt, Some(Easy))
  {
  }
}
