/**
 * The timers of src/components/Game.tsx: the per-prompt countdown with its
 * fire-once time-up, the gauge arithmetic, and the hidden two-minute
 * session timer with its mm:ss text. Interval ticks, the bar's
 * `transitionend` and the 400 ms fallback are events; `onPromptTimeUp` and
 * `onTimeUp` are counted calls.
 */
module PromptTimer {
  import opened Wrappers
  import opened Types
  import Num
  import Text
  import TimeLimit

  datatype Status = Idle | Playing | Finished

  /** The prompt gauge's state; `timeUps` counts the calls of `onPromptTimeUp`. */
  datatype ClockState = ClockState(timeLimit: Option<nat>, remaining: Option<int>, isTimeUp: bool, timeUpFired: bool, timeUps: nat)

  /**
   * The gauge's invariant: a shown remainder lies between 0 and the limit,
   * time is up only at 0, and a time-up is reported only once it is up.
   */
  predicate ValidClock(c: ClockState) {
    && (c.remaining.Some? ==> c.timeLimit.Some? && 0 <= c.remaining.value <= c.timeLimit.value)
    && (c.isTimeUp ==> c.remaining == Some(0))
    && (c.timeUpFired ==> c.isTimeUp)
  }

  /**
   * The effect on a change of prompt, status or time mode: no prompt clears
   * everything; otherwise the limit is the prompt's, the countdown starts
   * from it only while playing, and the time-up flags are cleared.
   */
  function Init(c: ClockState, prompt: Option<Prompt>, status: Status, mode: Option<Mode>): (r: ClockState)
    ensures ValidClock(r)
    ensures !r.isTimeUp && !r.timeUpFired && r.timeUps == c.timeUps
    ensures prompt.None? ==> r.timeLimit == None && r.remaining == None
    ensures prompt.Some? ==> r.timeLimit == Some(TimeLimit.GetTimeLimitSeconds(prompt.value, mode))
    ensures r.remaining.Some? <==> prompt.Some? && status == Playing
    ensures r.remaining.Some? ==> r.remaining == r.timeLimit
  {
    if prompt.None? then ClockState(None, None, false, false, c.timeUps)
    else
      var seconds := TimeLimit.GetTimeLimitSeconds(prompt.value, mode);
      ClockState(Some(seconds), if status == Playing then Some(seconds) else None, false, false, c.timeUps)
  }

  /** Whether the one-second interval is running: playing, a positive remainder, time not up. */
  predicate Counting(c: ClockState, status: Status) {
    status == Playing && c.remaining.Some? && c.remaining.value > 0 && !c.isTimeUp
  }

  /**
   * One tick of the interval, when it runs: the reducer takes one second
   * off, and from 1 (or less) it stops at 0 with time up.
   */
  function Ticked(c: ClockState, status: Status): (r: ClockState)
    requires ValidClock(c)
    ensures ValidClock(r)
    ensures !Counting(c, status) ==> r == c
    ensures Counting(c, status) ==> r.remaining.Some? && r.remaining.value == c.remaining.value - 1
    ensures Counting(c, status) ==> (r.isTimeUp <==> r.remaining == Some(0))
    ensures r.timeLimit == c.timeLimit && r.timeUpFired == c.timeUpFired && r.timeUps == c.timeUps
  {
    if !Counting(c, status) then c
    else if c.remaining.value <= 1 then c.(remaining := Some(0), isTimeUp := true)
    else c.(remaining := Some(c.remaining.value - 1))
  }

  /** `k` ticks in a row. */
  function Ticks(c: ClockState, status: Status, k: nat): (r: ClockState)
    requires ValidClock(c)
    ensures ValidClock(r)
    decreases k
  {
    if k == 0 then c else Ticks(Ticked(c, status), status, k - 1)
  }

  /**
   * From `n` seconds left, each of the first `n - 1` ticks leaves time
   * running and the `n`-th stops the countdown at 0 with time up.
   */
  lemma {:induction false} TimeUpAfterRemainingTicks(c: ClockState, k: nat)
    requires ValidClock(c) && Counting(c, Playing) && k <= c.remaining.value
    ensures var r := Ticks(c, Playing, k);
            && r.remaining == Some(c.remaining.value - k)
            && (r.isTimeUp <==> k == c.remaining.value)
    decreases k
  {
    if k > 0 {
      var c1 := Ticked(c, Playing);
      if k == 1 {
        assert Ticks(c1, Playing, 0) == c1;
      } else {
        assert Counting(c1, Playing);
        TimeUpAfterRemainingTicks(c1, k - 1);
      }
    }
  }

  /** A prompt with a zero limit (an empty romaji) never runs out: no tick ever counts. */
  lemma {:induction false} ZeroLimitNeverTimesUp(c: ClockState, prompt: Prompt, mode: Option<Mode>, k: nat)
    requires prompt.romaji == ""
    ensures var r := Ticks(Init(c, Some(prompt), Playing, mode), Playing, k);
            r.remaining == Some(0) && !r.isTimeUp
    decreases k
  {
    TimeLimit.EmptyRomajiGetsZero(prompt, mode);
    var i := Init(c, Some(prompt), Playing, mode);
    if k > 0 {
      assert Ticked(i, Playing) == i;
      ZeroLimitNeverTimesUp(c, prompt, mode, k - 1);
    }
  }

  /**
   * The bar's `transitionend` or the 400 ms fallback calls `finish` while
   * the time-up effect is armed (playing, time up, not yet reported): it
   * marks the time-up reported and calls `onPromptTimeUp`. The effect's own
   * `done` flag stops its second signal; the reported flag plays that part here.
   */
  function Signalled(c: ClockState, status: Status): (r: ClockState)
    requires ValidClock(c)
    ensures ValidClock(r)
    ensures r.timeUps == c.timeUps + (if status == Playing && c.isTimeUp && !c.timeUpFired then 1 else 0)
    ensures r.remaining == c.remaining && r.isTimeUp == c.isTimeUp && r.timeLimit == c.timeLimit
  {
    if status == Playing && c.isTimeUp && !c.timeUpFired then c.(timeUpFired := true, timeUps := c.timeUps + 1)
    else c
  }

  /**
   * `onPromptTimeUp` is called once per time-up: after the first signal,
   * neither another signal nor any tick calls it again until a new prompt.
   */
  lemma {:induction false} TimeUpReportedOnce(c: ClockState, k: nat)
    requires ValidClock(c) && c.isTimeUp
    ensures var s := Signalled(c, Playing);
            && s.timeUps <= c.timeUps + 1
            && Signalled(Ticks(s, Playing, k), Playing) == Ticks(s, Playing, k)
            && Ticks(s, Playing, k) == s
    decreases k
  {
    var s := Signalled(c, Playing);
    if k > 0 {
      assert Ticked(s, Playing) == s;
      TimeUpReportedOnce(c, k - 1);
    }
  }

  /** The time gauge's fill (`1 - remaining / timeLimit` clamped to [0, 1]); `None` stands for the NaN of 0 / 0. */
  function Ratio(remaining: Option<int>, timeLimit: nat): (r: Option<real>)
    ensures r.None? <==> remaining == Some(0) && timeLimit == 0
    ensures r.Some? ==> 0.0 <= r.value <= 1.0
    ensures remaining.None? ==> r == Some(0.0)
    ensures remaining.Some? && timeLimit > 0 && 0 <= remaining.value <= timeLimit ==>
              r.Some? && r.value * timeLimit as real == (timeLimit - remaining.value) as real
    ensures remaining.Some? && remaining.value >= timeLimit && r.Some? && remaining.value > 0 ==> r.value == 0.0
  {
    if remaining.None? then Some(0.0)
    else if timeLimit == 0 then
      // x / 0 is +Infinity, -Infinity or NaN as x is positive, negative or 0.
      if remaining.value > 0 then Some(0.0) else if remaining.value < 0 then Some(1.0) else None
    else Some(Num.MaxReal(0.0, Num.MinReal(1.0, 1.0 - remaining.value as real / timeLimit as real)))
  }

  /** The red-bar threshold: `Math.max(5, Math.ceil(timeLimit * 0.15))`. */
  function LowThreshold(timeLimit: nat): (r: nat)
    ensures r >= 5 && 15 * timeLimit <= 100 * r
    ensures r > 5 ==> 100 * (r - 1) < 15 * timeLimit
  {
    Num.Max(5, Num.CeilDiv(15 * timeLimit, 100))
  }

  /** The bar turns red once the remainder is at most the threshold. */
  predicate Low(remaining: Option<int>, timeLimit: nat) {
    remaining.Some? && remaining.value <= LowThreshold(timeLimit)
  }

  /**
   * The last five seconds are always red, and a remainder above 15% of the
   * limit (and above five seconds) never is.
   */
  lemma {:induction false} LowIffLastFifteenPercent(remaining: int, timeLimit: nat)
    ensures remaining <= 5 ==> Low(Some(remaining), timeLimit)
    ensures remaining > 5 && 100 * remaining >= 15 * timeLimit + 100 ==> !Low(Some(remaining), timeLimit)
    ensures 100 * remaining <= 15 * timeLimit ==> Low(Some(remaining), timeLimit)
  {
    var t := LowThreshold(timeLimit);
    if remaining > 5 && 100 * remaining >= 15 * timeLimit + 100 && t > 5 {
      assert 100 * (t - 1) < 15 * timeLimit;
    }
  }

  class PromptClock {
    var timeLimit: Option<nat>
    var remaining: Option<int>
    var isTimeUp: bool
    var timeUpFired: bool
    /** How many times `onPromptTimeUp` has been called. */
    var timeUps: nat

    function State(): ClockState
      reads this
    {
      ClockState(timeLimit, remaining, isTimeUp, timeUpFired, timeUps)
    }

    ghost predicate Valid()
      reads this
    {
      ValidClock(State())
    }

    constructor()
      ensures Valid()
      ensures State() == ClockState(None, None, false, false, 0)
    {
      timeLimit, remaining, isTimeUp, timeUpFired, timeUps := None, None, false, false, 0;
    }

    /** The effect run on a new prompt, status or time mode. */
    method PromptChanged(prompt: Option<Prompt>, status: Status, mode: Option<Mode>)
      modifies this`timeLimit, this`remaining, this`isTimeUp, this`timeUpFired
      ensures Valid()
      ensures State() == Init(old(State()), prompt, status, mode)
    {
      isTimeUp, timeUpFired := false, false;
      if prompt.None? {
        timeLimit, remaining := None, None;
        return;
      }
      var seconds := TimeLimit.GetTimeLimitSeconds(prompt.value, mode);
      timeLimit := Some(seconds);
      if status == Playing {
        remaining := Some(seconds);
      } else {
        remaining := None;
      }
    }

    /** A tick of the one-second interval, which runs only while counting. */
    method Tick(status: Status)
      requires Valid()
      modifies this`remaining, this`isTimeUp
      ensures Valid()
      ensures State() == Ticked(old(State()), status)
    {
      if status != Playing || remaining.None? || remaining.value <= 0 || isTimeUp {
        return;
      }
      var prev := remaining.value;
      if prev <= 1 {
        remaining, isTimeUp := Some(0), true;
      } else {
        remaining := Some(prev - 1);
      }
    }

    /** The bar's `transitionend` or the fallback timer. */
    method Signal(status: Status)
      requires Valid()
      modifies this`timeUpFired, this`timeUps
      ensures Valid()
      ensures State() == Signalled(old(State()), status)
    {
      if status == Playing && isTimeUp && !timeUpFired {
        timeUpFired := true;
        timeUps := timeUps + 1;
      }
    }
  }

  /** The session timer's length, in seconds. */
  const SessionTotal: nat := 120

  /** The hidden `SessionTimer`: its deadline, its clock reading, and `onTimeUp`'s calls. */
  datatype SessionTimerState = SessionTimerState(endsAt: int, now: int, fired: bool, timeUps: nat)

  /** `onTimeUp` has been called once exactly when the fired flag is set. */
  predicate ValidSessionTimer(s: SessionTimerState) {
    s.timeUps == if s.fired then 1 else 0
  }

  /** The 250 ms interval, which runs only while the deadline is ahead, reads the clock. */
  function SessionTicked(s: SessionTimerState, t: int): (r: SessionTimerState)
    requires ValidSessionTimer(s)
    ensures ValidSessionTimer(r)
    ensures s.now >= s.endsAt ==> r == s
    ensures s.now < s.endsAt ==> r == s.(now := t)
  {
    if s.now >= s.endsAt then s else s.(now := t)
  }

  /** `transitionend` or the fallback: with no second left and not yet fired, fire and call `onTimeUp`. */
  function SessionSignalled(s: SessionTimerState): (r: SessionTimerState)
    requires ValidSessionTimer(s)
    ensures ValidSessionTimer(r)
    ensures r.fired <==> s.fired || Num.SecondsLeft(s.endsAt, s.now) == 0
    ensures r.endsAt == s.endsAt && r.now == s.now
  {
    if Num.SecondsLeft(s.endsAt, s.now) > 0 || s.fired then s else s.(fired := true, timeUps := s.timeUps + 1)
  }

  /** Once the deadline is reached, the clock stops and a signal has `onTimeUp` called exactly once, never again. */
  lemma {:induction false} SessionTimeUpOnce(s: SessionTimerState, t: int)
    requires ValidSessionTimer(s) && s.now >= s.endsAt
    ensures var f := SessionSignalled(s);
            && f.timeUps == 1
            && SessionTicked(f, t) == f
            && SessionSignalled(SessionTicked(f, t)) == f
  {
  }

  /** The hidden session timer's bar fill: the elapsed share of 120 s, by whole seconds left. */
  function SessionRatio(s: SessionTimerState): (r: real)
    ensures 0.0 <= r <= 1.0
    ensures Num.SecondsLeft(s.endsAt, s.now) == 0 ==> r == 1.0
    ensures Num.SecondsLeft(s.endsAt, s.now) >= SessionTotal ==> r == 0.0
  {
    Ratio(Some(Num.SecondsLeft(s.endsAt, s.now)), SessionTotal).value
  }

  /** `SessionText`: the seconds left before the deadline as mm:ss. */
  function SessionText(endsAt: int, now: int): (r: string)
    ensures Text.ShowsClock(r, Num.SecondsLeft(endsAt, now))
  {
    var sec := Num.SecondsLeft(endsAt, now);
    var r := Text.MmSs(sec);
    Text.MmSsReadsBack(sec);
    r
  }
}
