/**
 * The beat-sync line engine of src/components/SuddenDeath/Game.tsx: lyric
 * lines timed against a playing video, one line to type at a time, hard
 * blocking of keystrokes that start no spelling of the line.
 *
 * The component's state hooks and refs are the fields of `Engine`; each
 * handler, the polling callback and the countdown effect are its methods.
 * A handler reads the state it was rendered with and its setters take effect
 * in order, so a later assignment to a field overrides an earlier one. Times
 * are whole milliseconds; the player's clock reading, `performance.now()`,
 * the player's readiness and the fetched lines are parameters.
 */
module BeatSync {
  import opened Wrappers
  import opened Text
  import Typing
  import Num

  /** A lyric line: when it starts and ends, and the romaji to type. */
  datatype Line = Line(startMs: int, endMs: int, romaji: string)

  datatype Phase = Idle | Loading | Ready | Waiting | Countdown | Playing | Cleared | Dead

  datatype Error = InvalidVideoId | FetchFailed

  /** The keys the keyboard handler distinguishes. */
  datatype Key = F4 | Space | Escape | OtherKey

  /** What a key press does. */
  datatype KeyAction =
    | SkipCountdown | CountdownToFirstLine | FromBeginning | SkipLineAndSeek | SkipLine | ResetRun | NoAction

  /** The lyric offset: the component declares a setter for it and never calls it. */
  const OffsetMs: int := 0
  /** The countdown starts this long before the first line. */
  const CountdownLeadMs: int := 3000

  // ---------------------------------------------------------------------------
  // Pure helpers
  // ---------------------------------------------------------------------------

  predicate IsIdChar(c: char) {
    IsAsciiLetter(c) || IsDigit(c) || c == '_' || c == '-'
  }

  /** Every character is one of `A-Z a-z 0-9 _ -`. */
  predicate AllIdChars(s: string) {
    |s| == 0 || (IsIdChar(s[0]) && AllIdChars(s[1..]))
  }

  lemma {:induction false} AllIdCharsIff(s: string)
    ensures AllIdChars(s) <==> forall i :: 0 <= i < |s| ==> IsIdChar(s[i])
  {
    if |s| > 0 {
      AllIdCharsIff(s[1..]);
      assert forall i :: 1 <= i < |s| ==> s[i] == s[1..][i - 1];
    }
  }

  /** `isValidVideoId`: once trimmed, at least six characters from `A-Z a-z 0-9 _ -`. */
  predicate IsValidVideoId(id: string) {
    |Trim(id)| >= 6 && AllIdChars(Trim(id))
  }

  /** An id that passes has no white space left once trimmed, and its trimmed form passes too. */
  lemma {:induction false} ValidIdIsTrimmed(id: string)
    requires IsValidVideoId(id)
    ensures forall i :: 0 <= i < |Trim(id)| ==> !IsWhite(Trim(id)[i])
    ensures Trim(Trim(id)) == Trim(id) && IsValidVideoId(Trim(id))
  {
    AllIdCharsIff(Trim(id));
    TrimIdempotent(id);
  }

  /** `firstLineStartMs`: the earliest start of any line, 0 with no lines. */
  function FirstLineStartMs(lines: seq<Line>): (r: int)
    ensures |lines| == 0 ==> r == 0
    ensures |lines| > 0 ==> exists k :: 0 <= k < |lines| && lines[k].startMs == r
    ensures forall k :: 0 <= k < |lines| ==> r <= lines[k].startMs
  {
    if |lines| == 0 then 0
    else if |lines| == 1 then lines[0].startMs
    else
      var m := FirstLineStartMs(lines[1..]);
      assert lines[1..][0] == lines[1];
      if lines[0].startMs <= m then lines[0].startMs else m
  }

  /** `lines.findIndex(l => adjusted < l.endMs)`: the first line not yet over, or -1. */
  function FindIndex(lines: seq<Line>, adjusted: int): (r: int)
    ensures -1 <= r < |lines|
    ensures r == -1 <==> forall k :: 0 <= k < |lines| ==> lines[k].endMs <= adjusted
    ensures r >= 0 ==> adjusted < lines[r].endMs && forall k :: 0 <= k < r ==> lines[k].endMs <= adjusted
  {
    if |lines| == 0 then -1
    else if adjusted < lines[0].endMs then 0
    else
      var k := FindIndex(lines[1..], adjusted);
      if k == -1 then -1 else k + 1
  }

  /**
   * As the clock moves forward the current line never moves back, and once
   * every line is over it stays so.
   */
  lemma {:induction false} FindIndexMonotone(lines: seq<Line>, a1: int, a2: int)
    requires a1 <= a2
    ensures FindIndex(lines, a1) == -1 ==> FindIndex(lines, a2) == -1
    ensures FindIndex(lines, a2) >= 0 ==> 0 <= FindIndex(lines, a1) <= FindIndex(lines, a2)
  {
    var k2 := FindIndex(lines, a2);
    if k2 >= 0 {
      assert a1 < lines[k2].endMs;
    }
  }

  /** The characters the beat-sync input keeps: letters, apostrophe, white space and hyphen. */
  predicate IsTypable(c: char) {
    IsAsciiLetter(c) || c == '\'' || IsWhite(c) || c == '-'
  }

  /** `val.replace(/[^a-zA-Z'\s-]/g, "")`. */
  function Sanitize(s: string): (r: string)
    ensures |r| <= |s|
    ensures forall i :: 0 <= i < |r| ==> IsTypable(r[i])
    ensures (forall i :: 0 <= i < |s| ==> IsTypable(s[i])) ==> r == s
  {
    if |s| == 0 then ""
    else (if IsTypable(s[0]) then [s[0]] else []) + Sanitize(s[1..])
  }

  /**
   * Sanitizing deletes rather than replaces: the result holds each typable
   * character of the input as often as the input does, and nothing else.
   * With `SanitizeAppend` this pins the result down to the typable characters
   * of the input in their order.
   */
  lemma {:induction false} SanitizeKeepsExactly(s: string)
    ensures var r := Sanitize(s);
            forall c :: multiset(r)[c] == if IsTypable(c) then multiset(s)[c] else 0
    decreases |s|
  {
    if |s| > 0 {
      SanitizeKeepsExactly(s[1..]);
      assert s == [s[0]] + s[1..];
      assert multiset(s) == multiset([s[0]]) + multiset(s[1..]);
    }
  }

  /** Sanitizing works character by character: it distributes over concatenation. */
  lemma {:induction false} SanitizeAppend(s: string, t: string)
    ensures Sanitize(s + t) == Sanitize(s) + Sanitize(t)
    decreases |s|
  {
    if |s| == 0 {
      assert s + t == t;
    } else {
      var head := if IsTypable(s[0]) then [s[0]] else [];
      assert (s + t)[0] == s[0] && (s + t)[1..] == s[1..] + t;
      assert Sanitize(s + t) == head + Sanitize(s[1..] + t);
      SanitizeAppend(s[1..], t);
    }
  }

  /** Sanitizing twice is sanitizing once. */
  lemma {:induction false} SanitizeIdempotent(s: string)
    ensures Sanitize(Sanitize(s)) == Sanitize(s)
  {
  }

  /** `Math.min(1, Math.max(0, v))`. */
  function Clamp01(v: real): (r: real)
    ensures 0.0 <= r <= 1.0
    ensures 0.0 <= v <= 1.0 ==> r == v
    ensures v < 0.0 ==> r == 0.0
    ensures v > 1.0 ==> r == 1.0
  {
    Num.MinReal(1.0, Num.MaxReal(0.0, v))
  }

  /**
   * `handleSeek`'s target: nothing when the duration is 0 (unknown), otherwise
   * the duration times the clamped ratio.
   */
  function SeekTarget(durationSec: real, ratio: real): (r: Option<real>)
    ensures r.None? <==> durationSec == 0.0
    ensures r.Some? && durationSec > 0.0 ==> 0.0 <= r.value <= durationSec
    ensures r.Some? && 0.0 <= ratio <= 1.0 ==> r.value == durationSec * ratio
  {
    if durationSec == 0.0 then None else Some(durationSec * Clamp01(ratio))
  }

  /** The player clock a poll reads, and the refs it leaves behind. */
  datatype Clock = Clock(t: int, lastTimeMs: int, lastNow: Option<int>)

  /**
   * The clock reading at the top of the poll: the player's reading when it is
   * a number; otherwise, while playing with a previous wall time, the last
   * reading moved on by the wall time elapsed (never below 0); otherwise the
   * last reading.
   */
  function Extrapolate(reading: Option<int>, isPlaying: bool, lastTimeMs: int, lastNow: Option<int>, now: int): (c: Clock)
    ensures c.t == c.lastTimeMs
    ensures reading.Some? ==> c.t == reading.value && c.lastNow == Some(now)
    ensures reading.None? && isPlaying && lastNow.Some? ==>
              c.t >= 0 && c.lastNow == Some(now)
              && (now >= lastNow.value ==> c.t >= lastTimeMs)
              && (lastTimeMs + (now - lastNow.value) >= 0 ==> c.t == lastTimeMs + (now - lastNow.value))
    ensures reading.None? && !(isPlaying && lastNow.Some?) ==> c == Clock(lastTimeMs, lastTimeMs, lastNow)
  {
    if reading.Some? then Clock(reading.value, reading.value, Some(now))
    else if isPlaying && lastNow.Some? then
      var t := Num.Max(0, lastTimeMs + (now - lastNow.value));
      Clock(t, t, Some(now))
    else Clock(lastTimeMs, lastTimeMs, lastNow)
  }

  /** The countdown number shown `remaining` ms before the first line: `Math.max(0, Math.ceil(remaining / 1000))`. */
  function CountdownFor(remaining: int): (n: int)
    ensures 0 < remaining <= CountdownLeadMs ==> 1 <= n <= 3
    ensures remaining > 0 ==> (n - 1) * 1000 < remaining <= n * 1000
  {
    Num.Max(0, Num.CeilDiv(remaining, 1000))
  }

  /**
   * What Space does, from the phase, whether the clock is before the first
   * line, the intro-skipped flag (after the handler's own reset of it) and
   * whether the video plays.
   */
  function SpaceAction(phase: Phase, beforeFirstLine: bool, introSkipped: bool, isPlaying: bool): (a: KeyAction)
    ensures a == NoAction <==> phase !in {Countdown, Playing, Ready, Waiting}
    ensures phase == Countdown <==> a == SkipCountdown
    ensures phase == Ready ==> a == FromBeginning
    ensures phase == Playing ==> (a == CountdownToFirstLine <==> beforeFirstLine)
    ensures phase == Playing || phase == Waiting ==>
              (a == SkipLineAndSeek <==> !beforeFirstLine && (phase == Playing || isPlaying))
  {
    if phase == Countdown then SkipCountdown
    else if phase == Playing && beforeFirstLine then CountdownToFirstLine
    else if phase == Ready then FromBeginning
    else if phase == Waiting && !beforeFirstLine && !isPlaying then FromBeginning
    else if phase == Waiting && beforeFirstLine then CountdownToFirstLine
    else if (phase == Playing || phase == Waiting) && (introSkipped || !beforeFirstLine) then SkipLineAndSeek
    else if phase == Playing then ResetRun
    else NoAction
  }

  /**
   * Space never reaches its reset-while-playing branch, for every phase and
   * every flag: while playing, a clock before the first line starts the
   * countdown and any other clock skips the line.
   */
  lemma {:induction false} SpaceNeverResets(phase: Phase, beforeFirstLine: bool, introSkipped: bool, isPlaying: bool)
    ensures SpaceAction(phase, beforeFirstLine, introSkipped, isPlaying) != ResetRun
  {
  }

  // ---------------------------------------------------------------------------
  // The engine
  // ---------------------------------------------------------------------------

  /** The line being typed and the run's counters: `currentIdx`, `input`, `mistakes`, `solvedCount`, `solvedEarly`. */
  datatype Round = Round(currentIdx: nat, input: string, mistakes: nat, solvedCount: nat, solvedEarly: bool)

  /** The countdown hooks: `countdown` and `countdownActive`. */
  datatype CountdownState = CountdownState(value: Option<int>, active: bool)

  /** What the component last knew of the player: `isPlaying`, and `currentTime` in ms. */
  datatype Playback = Playback(isPlaying: bool, currentTimeMs: int)

  /**
   * The refs: `manualStartedRef`, `introSkippedRef`, `pendingIntroSkipRef`,
   * `countdownSkippedRef`, `lastTimeRef` (ms), `lastNowRef` and `startSecRef` (ms).
   */
  datatype Refs = Refs(manualStarted: bool, introSkipped: bool, pendingIntroSkip: bool, countdownSkipped: bool,
                       lastTimeMs: int, lastNow: Option<int>, startSecMs: int)

  const NewRound: Round := Round(0, "", 0, 0, false)
  const NoCountdown: CountdownState := CountdownState(None, false)
  const ClearedRefs: Refs := Refs(false, false, false, false, 0, None, 0)

  /** Every field of the engine, so that a handler can state its whole new state at once. */
  datatype EngineState = EngineState(
    videoId: string, lines: seq<Line>, volume: real, error: Option<Error>, phase: Phase,
    round: Round, countdown: CountdownState, playback: Playback, refs: Refs)

  /** The state `handleReset` (and the Replay button) leaves: READY at line 0, every counter and flag cleared, the clock at 0. */
  function ReadyState(videoId: string, lines: seq<Line>, volume: real): (s: EngineState)
    ensures s.phase == Ready && s.round.currentIdx == 0 && s.round.input == ""
    ensures s.round.mistakes == 0 && s.round.solvedCount == 0 && !s.round.solvedEarly
    ensures s.error.None? && s.refs == ClearedRefs
    ensures s.countdown.value.None? && !s.countdown.active
    ensures !s.playback.isPlaying && s.playback.currentTimeMs == 0
    ensures s.videoId == videoId && s.lines == lines && s.volume == volume
  {
    EngineState(videoId, lines, volume, None, Ready, NewRound, NoCountdown, Playback(false, 0), ClearedRefs)
  }

  /** A reset does not look at the state it resets: resetting twice is resetting once. */
  lemma {:induction false} ResetTwiceIsOnce(s: EngineState)
    ensures var r := ReadyState(s.videoId, s.lines, s.volume);
            ReadyState(r.videoId, r.lines, r.volume) == r
  {
  }

  /** The phases in which a line list is loaded. */
  predicate HasLines(p: Phase) {
    p == Ready || p == Waiting || p == Countdown || p == Playing
  }

  /**
   * The engine's invariant: the failed phase is never entered; the index
   * stays on a line (or at 0); a playable phase has lines; the volume is a
   * fraction; a running countdown shows a number from 0 to 3; loading starts
   * from line 0 with no countdown.
   */
  predicate ValidState(s: EngineState) {
    && s.phase != Dead
    && (s.round.currentIdx == 0 || s.round.currentIdx < |s.lines|)
    && (HasLines(s.phase) ==> |s.lines| > 0)
    && 0.0 <= s.volume <= 1.0
    && (s.countdown.active ==> s.countdown.value.Some? && |s.lines| > 0)
    && (s.countdown.value.Some? ==> 0 <= s.countdown.value.value <= 3)
    && (s.phase == Loading ==> s.round.currentIdx == 0 && !s.countdown.active)
  }

  /**
   * The polling callback's first check, on the state it read and the adjusted
   * clock `a`: waiting with a first line after 0 that is at most 3 s ahead,
   * no countdown running and neither the intro nor the countdown skipped.
   */
  predicate CountdownDue(s: EngineState, a: int) {
    var first := FirstLineStartMs(s.lines);
    s.phase == Waiting && |s.lines| > 0 && !s.countdown.active && !s.refs.introSkipped
    && first > 0 && a < first && !s.refs.countdownSkipped && first - a <= CountdownLeadMs
  }

  /** The third check: waiting, at or past the first line, with no countdown running. */
  predicate PlayDue(s: EngineState, a: int) {
    s.phase == Waiting && |s.lines| > 0 && a >= FirstLineStartMs(s.lines) && !s.countdown.active
  }

  /** A phase in which the current line follows the clock. */
  predicate Tracking(p: Phase) {
    p == Playing || p == Waiting || p == Countdown
  }

  /**
   * What the polling callback does once the clock reads `a` (adjusted), on
   * the state it read. Its checks run in order and a later setter overrides
   * an earlier one: start the countdown when due; in countdown, hold line 0
   * and keep playing; start playing when due; then, in a tracking phase,
   * clear the run when every line is over, or make the first line not yet
   * over current when it differs from the index the callback read.
   */
  function Polled(s: EngineState, a: int): (r: EngineState)
    ensures r.videoId == s.videoId && r.lines == s.lines && r.volume == s.volume && r.error == s.error
    ensures r.playback.currentTimeMs == s.playback.currentTimeMs
    ensures r.refs == s.refs || r.refs == s.refs.(introSkipped := true, pendingIntroSkip := false)
  {
    if |s.lines| == 0 then s
    else
      var first := FirstLineStartMs(s.lines);
      var checked :=
        if CountdownDue(s, a) then
          s.(countdown := CountdownState(Some(CountdownFor(first - a)), true), phase := Countdown,
             refs := s.refs.(introSkipped := true, pendingIntroSkip := false))
        else if s.phase == Countdown then
          s.(round := s.round.(currentIdx := 0), playback := s.playback.(isPlaying := true))
        else if PlayDue(s, a) then
          s.(phase := Playing, round := s.round.(currentIdx := 0, input := ""))
        else s;
      var k := FindIndex(s.lines, a);
      if !Tracking(s.phase) then checked
      else if k == -1 then checked.(phase := Cleared)
      else if k != s.round.currentIdx then checked.(round := checked.round.(solvedEarly := false, currentIdx := k, input := ""))
      else checked
  }

  /** The polling callback keeps the engine's invariant. */
  lemma {:induction false} PolledKeepsValid(s: EngineState, a: int)
    requires ValidState(s)
    ensures ValidState(Polled(s, a))
  {
    if |s.lines| > 0 && CountdownDue(s, a) {
      assert 0 < FirstLineStartMs(s.lines) - a <= CountdownLeadMs;
    }
  }

  /** While playing, unless the run is cleared, the current line is the first one not yet over at `a`. */
  lemma {:induction false} PolledPlayingFollowsClock(s: EngineState, a: int)
    requires s.phase == Playing && |s.lines| > 0
    ensures var r := Polled(s, a);
            r.phase == Cleared <==> forall k :: 0 <= k < |s.lines| ==> s.lines[k].endMs <= a
    ensures var r := Polled(s, a);
            r.phase != Cleared ==>
              && r.round.currentIdx < |s.lines| && a < s.lines[r.round.currentIdx].endMs
              && forall k :: 0 <= k < r.round.currentIdx ==> s.lines[k].endMs <= a
  {
  }

  /** While playing, a later clock never moves the current line back. */
  lemma {:induction false} PolledPlayingNeverMovesBack(s: EngineState, a1: int, a2: int)
    requires s.phase == Playing && |s.lines| > 0 && a1 <= a2
    requires Polled(s, a1).phase != Cleared && Polled(s, a2).phase != Cleared
    ensures Polled(s, a1).round.currentIdx <= Polled(s, a2).round.currentIdx
  {
    FindIndexMonotone(s.lines, a1, a2);
  }

  /** A countdown the callback starts shows 1, 2 or 3: the seconds left to the first line, rounded up. */
  lemma {:induction false} PolledCountdownShowsSeconds(s: EngineState, a: int)
    requires s.phase == Waiting && Polled(s, a).phase == Countdown
    ensures var r := Polled(s, a);
            var left := FirstLineStartMs(s.lines) - a;
            && 0 < left <= CountdownLeadMs
            && r.countdown == CountdownState(Some(CountdownFor(left)), true)
            && 1 <= r.countdown.value.value <= 3
            && r.refs.introSkipped
  {
  }

  /**
   * `startCountdownToFirstLine`: with lines, no countdown running and a first
   * line after 0, seek 3 s before the first line (not before 0), prime the
   * clock refs there and count down from 3 at line 0; otherwise nothing.
   */
  function CountdownStarted(s: EngineState, now: int): (r: EngineState)
    ensures var first := FirstLineStartMs(s.lines);
            |s.lines| == 0 || s.countdown.active || s.phase == Countdown || first <= 0 ==> r == s
    ensures var first := FirstLineStartMs(s.lines);
            |s.lines| > 0 && !s.countdown.active && s.phase != Countdown && first > 0 ==>
              var t := r.playback.currentTimeMs;
              && r.phase == Countdown && r.countdown == CountdownState(Some(3), true)
              && r.round == s.round.(solvedEarly := false, currentIdx := 0, input := "")
              && r.playback.isPlaying && 0 <= t < first && first - t <= CountdownLeadMs
              && (first >= CountdownLeadMs ==> first - t == CountdownLeadMs)
              && r.refs == Refs(true, false, false, false, t, Some(now), t)
    ensures r.videoId == s.videoId && r.lines == s.lines && r.volume == s.volume && r.error == s.error
  {
    var first := FirstLineStartMs(s.lines);
    if |s.lines| == 0 || s.countdown.active || s.phase == Countdown || first <= 0 then s
    else
      var startMs := Num.Max(0, first - CountdownLeadMs);
      s.(refs := Refs(true, false, false, false, startMs, Some(now), startMs),
         phase := Countdown, countdown := CountdownState(Some(3), true),
         round := s.round.(solvedEarly := false, currentIdx := 0, input := ""),
         playback := Playback(true, startMs))
  }

  /** `startFromBeginning`: with lines, clear the intro flags and the countdown and wait at line 0, playing from the video's start. */
  function StartedFromBeginning(s: EngineState, now: int): (r: EngineState)
    ensures |s.lines| == 0 ==> r == s
    ensures |s.lines| > 0 ==>
              && r.phase == Waiting && r.countdown == NoCountdown && r.playback == Playback(true, 0)
              && r.round == s.round.(solvedEarly := false, currentIdx := 0, input := "")
              && r.refs == Refs(false, false, false, false, 0, Some(now), 0)
    ensures r.videoId == s.videoId && r.lines == s.lines && r.volume == s.volume && r.error == s.error
  {
    if |s.lines| == 0 then s
    else
      s.(refs := Refs(false, false, false, false, 0, Some(now), 0), countdown := NoCountdown,
         round := s.round.(solvedEarly := false, currentIdx := 0, input := ""), phase := Waiting,
         playback := Playback(true, 0))
  }

  /**
   * `handleSkipLine`: in playing or waiting with lines loaded, empty the input
   * and the solved flag and move to the next line, or clear the run past the
   * last one; `seek` (a seek to the next line's start was asked for and a
   * player exists) also moves the clock to that line's start.
   */
  function LineSkipped(s: EngineState, seek: bool, now: int): (r: EngineState)
    ensures (s.phase != Playing && s.phase != Waiting) || |s.lines| == 0 ==> r == s
    ensures (s.phase == Playing || s.phase == Waiting) && |s.lines| > 0 ==>
              var next := s.round.currentIdx + 1;
              && r.round.input == "" && !r.round.solvedEarly
              && r.round.mistakes == s.round.mistakes && r.round.solvedCount == s.round.solvedCount
              && (r.phase == Cleared <==> next >= |s.lines|)
              && (next >= |s.lines| ==> r.round.currentIdx == s.round.currentIdx && r.playback == s.playback && r.refs == s.refs)
              && (next < |s.lines| ==> r.phase == s.phase && r.round.currentIdx == next)
              && (next < |s.lines| && seek ==>
                    r.playback == s.playback.(currentTimeMs := s.lines[next].startMs)
                    && r.refs == s.refs.(lastTimeMs := s.lines[next].startMs, lastNow := Some(now)))
              && (!seek ==> r.playback == s.playback && r.refs == s.refs)
    ensures r.videoId == s.videoId && r.lines == s.lines && r.volume == s.volume && r.error == s.error
    ensures r.countdown == s.countdown
  {
    if (s.phase != Playing && s.phase != Waiting) || |s.lines| == 0 then s
    else
      var next := s.round.currentIdx + 1;
      var cleared := s.round.(input := "", solvedEarly := false);
      if next >= |s.lines| then s.(round := cleared, phase := Cleared)
      else if seek then
        var startMs := s.lines[next].startMs;
        s.(round := cleared.(currentIdx := next), playback := s.playback.(currentTimeMs := startMs),
           refs := s.refs.(lastTimeMs := startMs, lastNow := Some(now)))
      else s.(round := cleared.(currentIdx := next))
  }

  /** Skipping a line keeps the engine's invariant. */
  lemma {:induction false} LineSkippedKeepsValid(s: EngineState, seek: bool, now: int)
    requires ValidState(s)
    ensures ValidState(LineSkipped(s, seek, now))
  {
  }

  /** The Space branch that skips a running countdown: play from the primed start (not before 0) at line 0. */
  function CountdownSkipped(s: EngineState, now: int): (r: EngineState)
    ensures var t := r.playback.currentTimeMs;
            && r.phase == Playing && r.countdown == NoCountdown && r.playback.isPlaying
            && t >= 0 && (s.refs.startSecMs > 0 ==> t == s.refs.startSecMs)
            && r.round == s.round.(currentIdx := 0, input := "", solvedEarly := false)
            && r.refs == Refs(true, false, false, true, t, Some(now), t)
    ensures r.videoId == s.videoId && r.lines == s.lines && r.volume == s.volume && r.error == s.error
  {
    var startMs := if s.refs.startSecMs > 0 then s.refs.startSecMs else 0;
    s.(refs := Refs(true, false, false, true, startMs, Some(now), startMs), countdown := NoCountdown,
       phase := Playing, round := s.round.(currentIdx := 0, input := "", solvedEarly := false),
       playback := Playback(true, startMs))
  }

  /** `handleReset` (F4): with lines loaded, the ready state; with none, nothing. */
  function AfterReset(s: EngineState): (r: EngineState)
    ensures |s.lines| == 0 ==> r == s
    ensures |s.lines| > 0 ==> r == ReadyState(s.videoId, s.lines, s.volume) && r.phase == Ready
  {
    if |s.lines| == 0 then s else ReadyState(s.videoId, s.lines, s.volume)
  }

  /** Whether the clock (the live reading, else the last known time) is more than 100 ms before the first line. */
  predicate BeforeFirstLine(s: EngineState, live: Option<int>) {
    (if live.Some? then live.value else s.playback.currentTimeMs) + OffsetMs < FirstLineStartMs(s.lines) - 100
  }

  /** The keyboard handler's first step: before the first line, the intro flags are cleared. */
  function IntroCleared(s: EngineState, live: Option<int>): (r: EngineState)
    ensures BeforeFirstLine(s, live) ==> !r.refs.introSkipped
    ensures BeforeFirstLine(s, live) && s.refs.introSkipped ==>
              r == s.(refs := s.refs.(introSkipped := false, pendingIntroSkip := false, countdownSkipped := false))
    ensures !(BeforeFirstLine(s, live) && s.refs.introSkipped) ==> r == s
  {
    if BeforeFirstLine(s, live) && s.refs.introSkipped then
      s.(refs := s.refs.(introSkipped := false, pendingIntroSkip := false, countdownSkipped := false))
    else s
  }

  /** The state a key action leaves, by the handler it calls. */
  function Acted(s: EngineState, action: KeyAction, now: int): EngineState {
    match action
    case SkipCountdown => CountdownSkipped(s, now)
    case CountdownToFirstLine => CountdownStarted(s, now)
    case FromBeginning => StartedFromBeginning(s, now)
    case SkipLineAndSeek => LineSkipped(s, true, now)
    case SkipLine => LineSkipped(s, false, now)
    case ResetRun => AfterReset(s)
    case NoAction => s
  }

  class Engine {
    var videoId: string
    var lines: seq<Line>
    var volume: real
    var error: Option<Error>
    var phase: Phase
    var round: Round
    var countdown: CountdownState
    var playback: Playback
    var refs: Refs

    function State(): EngineState
      reads this
    {
      EngineState(videoId, lines, volume, error, phase, round, countdown, playback, refs)
    }

    /** The engine's invariant, `ValidState`, on its fields. */
    ghost predicate Valid()
      reads this
    {
      ValidState(State())
    }

    constructor()
      ensures Valid()
      ensures State() == EngineState("", [], 0.6, None, Idle, NewRound, NoCountdown, Playback(false, 0), ClearedRefs)
    {
      videoId, lines, volume, error, phase := "", [], 0.6, None, Idle;
      round, countdown, playback, refs := NewRound, NoCountdown, Playback(false, 0), ClearedRefs;
    }

    /**
     * `resetState(opts)`: clear the intro flags, the countdown and the round;
     * `clearLines` also drops the lines and `resetManualStart` the manual-start
     * flag, and either one rewinds the clock refs.
     */
    method ResetState(clearLines: bool, resetManualStart: bool)
      modifies this
      ensures State() == old(State()).(
                lines := if clearLines then [] else old(lines),
                refs := Refs(if resetManualStart then false else old(refs.manualStarted), false, false, false,
                             if clearLines || resetManualStart then 0 else old(refs.lastTimeMs),
                             if clearLines || resetManualStart then None else old(refs.lastNow), 0),
                countdown := NoCountdown, round := NewRound, error := None)
    {
      if clearLines {
        lines := [];
      }
      var rewind := clearLines || resetManualStart;
      refs := Refs(if resetManualStart then false else refs.manualStarted, false, false, false,
                   if rewind then 0 else refs.lastTimeMs, if rewind then None else refs.lastNow, 0);
      countdown := NoCountdown;
      round := NewRound;
      error := None;
    }

    /**
     * The synchronous part of `handleFetch`: the trimmed id (the override, else
     * the current id) must be valid, or only the error is set and nothing is
     * fetched (`None`). Otherwise the id is taken, the run is reset with its
     * lines dropped, the engine is loading, and the id to fetch is returned.
     */
    method BeginFetch(idOverride: Option<string>) returns (target: Option<string>)
      requires Valid()
      modifies this`videoId, this`lines, this`error, this`phase, this`round, this`countdown, this`refs
      ensures Valid()
      ensures target.None? <==> !IsValidVideoId(Trim(idOverride.GetOr(old(videoId))))
      ensures target.None? ==> State() == old(State()).(error := Some(InvalidVideoId))
      ensures target.Some? ==>
                && target.value == Trim(idOverride.GetOr(old(videoId)))
                && State() == EngineState(target.value, [], old(volume), None, Loading,
                                          NewRound, NoCountdown, old(playback), ClearedRefs)
    {
      var id := Trim(idOverride.GetOr(videoId));
      if !IsValidVideoId(id) {
        error := Some(InvalidVideoId);
        return None;
      }
      // `resetState({ clearLines: true, resetManualStart: true })` and `setPhase("loading")`.
      videoId, lines, error, phase := id, [], None, Loading;
      round, countdown, refs := NewRound, NoCountdown, ClearedRefs;
      target := Some(id);
    }

    /**
     * The awaited part of `handleFetch`: `fetched` is what the fetch produced,
     * `None` for a failure. A non-empty list ends ready with those lines and
     * the manual-start flag down; an empty or failed fetch ends idle with an error.
     */
    method CompleteFetch(fetched: Option<seq<Line>>)
      requires Valid() && phase == Loading
      modifies this`lines, this`error, this`phase, this`refs
      ensures Valid()
      ensures fetched.Some? && |fetched.value| > 0 ==>
                State() == old(State()).(lines := fetched.value, error := None, phase := Ready,
                                         refs := old(refs).(manualStarted := false))
      ensures fetched.None? || |fetched.value| == 0 ==>
                State() == old(State()).(error := Some(FetchFailed), phase := Idle)
    {
      if fetched.None? || |fetched.value| == 0 {
        error, phase := Some(FetchFailed), Idle;
      } else {
        lines, error, phase := fetched.value, None, Ready;
        refs := refs.(manualStarted := false);
      }
    }

    /** The clock half of the polling callback: extrapolate the reading and record it in the clock refs. */
    method AdvanceClock(reading: Option<int>, now: int) returns (adjusted: int)
      requires Valid()
      modifies this`playback, this`refs
      ensures Valid()
      ensures var c := Extrapolate(reading, old(playback.isPlaying), old(refs.lastTimeMs), old(refs.lastNow), now);
              && adjusted == c.t + OffsetMs
              && playback == old(playback).(currentTimeMs := c.t)
              && refs == old(refs).(lastTimeMs := c.lastTimeMs, lastNow := c.lastNow)
    {
      var c := Extrapolate(reading, playback.isPlaying, refs.lastTimeMs, refs.lastNow, now);
      playback := playback.(currentTimeMs := c.t);
      refs := refs.(lastTimeMs := c.lastTimeMs, lastNow := c.lastNow);
      adjusted := c.t + OffsetMs;
    }

    /** The phase half of the polling callback: every setter it calls, at the adjusted clock `a`. */
    method Track(a: int)
      requires Valid()
      modifies this`phase, this`round, this`countdown, this`playback, this`refs
      ensures Valid()
      ensures State() == Polled(old(State()), a)
    {
      // The callback reads the rendered state and its setters apply together.
      var next := Polled(State(), a);
      PolledKeepsValid(State(), a);
      phase, round, countdown, playback, refs := next.phase, next.round, next.countdown, next.playback, next.refs;
    }

    /**
     * The polling callback `update`, given the player's clock reading in ms
     * (`None` when it is not a number) and the wall time `now`: advance the
     * clock and record it in the clock refs, then act as `Polled` at the
     * adjusted clock.
     */
    method Poll(reading: Option<int>, now: int)
      requires Valid()
      modifies this`phase, this`round, this`countdown, this`playback, this`refs
      ensures Valid()
      ensures var c := Extrapolate(reading, old(playback.isPlaying), old(refs.lastTimeMs), old(refs.lastNow), now);
              State() == Polled(old(State()).(playback := old(playback).(currentTimeMs := c.t),
                                              refs := old(refs).(lastTimeMs := c.lastTimeMs, lastNow := c.lastNow)),
                                c.t + OffsetMs)
    {
      var a := AdvanceClock(reading, now);
      Track(a);
    }

    /**
     * The countdown effect: while a countdown runs, a number above 0 drops by
     * one when its one-second timer fires; at 0 or below the run starts
     * playing at line 0 with the countdown gone.
     */
    method CountdownTick()
      requires Valid()
      modifies this
      ensures Valid()
      ensures !old(countdown.active) || old(countdown.value).None? ==> State() == old(State())
      ensures old(countdown.active) && old(countdown.value).Some? && old(countdown.value).value > 0 ==>
                State() == old(State()).(countdown := CountdownState(Some(old(countdown.value).value - 1), true))
      ensures old(countdown.active) && old(countdown.value).Some? && old(countdown.value).value <= 0 ==>
                State() == old(State()).(
                  playback := old(playback).(isPlaying := true), refs := old(refs).(manualStarted := true),
                  phase := Playing, round := old(round).(currentIdx := 0, input := "", solvedEarly := false),
                  countdown := NoCountdown)
    {
      if !countdown.active || countdown.value.None? {
        return;
      }
      var n := countdown.value.value;
      if n <= 0 {
        playback := playback.(isPlaying := true);
        refs := refs.(manualStarted := true);
        phase := Playing;
        round := round.(currentIdx := 0, input := "", solvedEarly := false);
        countdown := NoCountdown;
        return;
      }
      countdown := countdown.(value := Some(n - 1));
    }

    /**
     * `handleSkipLine`: in playing or waiting with lines loaded, empty the input
     * and the solved flag and move to the next line, or clear the run past the
     * last one; `seek` (a seek to the next line's start was asked for and a
     * player exists) also moves the clock to that line's start.
     */
    method HandleSkipLine(seek: bool, now: int)
      requires Valid()
      modifies this
      ensures Valid()
      ensures State() == LineSkipped(old(State()), seek, now)
    {
      LineSkippedKeepsValid(State(), seek, now);
      if (phase != Playing && phase != Waiting) || |lines| == 0 {
        return;
      }
      var next := round.currentIdx + 1;
      var r, ph, pb, rf := round.(input := "", solvedEarly := false), phase, playback, refs;
      if next >= |lines| {
        ph := Cleared;
      } else {
        r := r.(currentIdx := next);
        if seek {
          var targetMs := lines[next].startMs;
          pb := pb.(currentTimeMs := targetMs);
          rf := rf.(lastTimeMs := targetMs, lastNow := Some(now));
        }
      }
      round, phase, playback, refs := r, ph, pb, rf;
    }

    /** `handleSolved`: count the line, lock input until the line's window ends, and empty the input. */
    method HandleSolved()
      requires Valid()
      modifies this`round
      ensures Valid()
      ensures round == old(round).(solvedCount := old(round.solvedCount) + 1, solvedEarly := true, input := "")
    {
      round := round.(solvedCount := round.solvedCount + 1, solvedEarly := true, input := "");
    }

    /**
     * `handleInput`: only while playing a line that is not yet solved. The
     * value is sanitized; a keystroke that does not delete and starts no
     * spelling of the line is blocked and counted as a mistake; otherwise it is
     * stored, and an accepted spelling solves the line.
     */
    method HandleInput(value: string)
      requires Valid()
      modifies this`round
      ensures Valid()
      ensures !(old(round.currentIdx) < |lines| && phase == Playing && !old(round.solvedEarly)) ==> round == old(round)
      ensures old(round.currentIdx) < |lines| && phase == Playing && !old(round.solvedEarly) ==>
                var s := Sanitize(value);
                var romaji := lines[old(round.currentIdx)].romaji;
                round == if |s| >= |old(round.input)| && !Typing.PrefixesSomeSpelling(s, romaji) then
                           old(round).(mistakes := old(round.mistakes) + 1)
                         else if Typing.IsAcceptedRomaji(s, romaji) then
                           old(round).(input := "", solvedCount := old(round.solvedCount) + 1, solvedEarly := true)
                         else
                           old(round).(input := s)
    {
      if round.currentIdx >= |lines| || phase != Playing || round.solvedEarly {
        return;
      }
      var romaji := lines[round.currentIdx].romaji;
      var sanitized := Sanitize(value);
      var isDeleting := |sanitized| < |round.input|;
      var ok := true;
      if !isDeleting {
        ok := Typing.PrefixOKVariants(sanitized, romaji);
      }
      var r := round;
      if !ok {
        r := r.(mistakes := r.mistakes + 1);
      } else if Typing.IsAcceptedRomaji(sanitized, romaji) {
        r := r.(input := "", solvedCount := r.solvedCount + 1, solvedEarly := true);
      } else {
        r := r.(input := sanitized);
      }
      round := r;
    }

    /**
     * `startCountdownToFirstLine`: with lines, no countdown running and a first
     * line after 0, seek 3 s before the first line (not before 0) and count
     * down from 3 at line 0.
     */
    method StartCountdownToFirstLine(now: int)
      requires Valid()
      modifies this
      ensures Valid()
      ensures State() == CountdownStarted(old(State()), now)
    {
      if |lines| == 0 || countdown.active || phase == Countdown {
        return;
      }
      var first := FirstLineStartMs(lines);
      if !(first > 0) {
        return;
      }
      var startMs := Num.Max(0, first - CountdownLeadMs);
      refs := refs.(introSkipped := false, pendingIntroSkip := false, countdownSkipped := false, manualStarted := true);
      refs := refs.(startSecMs := startMs);
      phase := Countdown;
      countdown := CountdownState(Some(3), true);
      round := round.(solvedEarly := false, currentIdx := 0, input := "");
      playback := Playback(true, startMs);
      refs := refs.(lastTimeMs := startMs, lastNow := Some(now));
    }

    /**
     * `requestIntroSkip`: refused with no lines or once the clock is within
     * 200 ms of the first line; otherwise mark a pending skip and, when the
     * player is ready, start the countdown at once (which clears the mark).
     */
    method RequestIntroSkip(playerReady: bool, now: int)
      requires Valid()
      modifies this
      ensures Valid()
      ensures var first := FirstLineStartMs(old(lines));
              |old(lines)| == 0 || old(playback.currentTimeMs) + OffsetMs >= first - 200 ==> State() == old(State())
      ensures var first := FirstLineStartMs(old(lines));
              var marked := old(State()).(refs := old(refs).(pendingIntroSkip := true));
              |old(lines)| > 0 && old(playback.currentTimeMs) + OffsetMs < first - 200 ==>
                State() == if playerReady then CountdownStarted(marked, now) else marked
    {
      if |lines| == 0 {
        return;
      }
      var adjusted := playback.currentTimeMs + OffsetMs;
      if adjusted >= FirstLineStartMs(lines) - 200 {
        return;
      }
      refs := refs.(pendingIntroSkip := true);
      if playerReady {
        StartCountdownToFirstLine(now);
      }
    }

    /** `startFromBeginning`: with lines, clear the intro flags and the countdown and wait at line 0 from the video's start. */
    method StartFromBeginning(now: int)
      requires Valid()
      modifies this
      ensures Valid()
      ensures State() == StartedFromBeginning(old(State()), now)
    {
      if |lines| == 0 {
        return;
      }
      refs := refs.(introSkipped := false, pendingIntroSkip := false, countdownSkipped := false, manualStarted := false, startSecMs := 0);
      countdown := NoCountdown;
      round := round.(solvedEarly := false, currentIdx := 0, input := "");
      phase := Waiting;
      playback := Playback(true, 0);
      refs := refs.(lastTimeMs := 0, lastNow := Some(now));
    }

    /** `handleReset`: with lines loaded, back to the ready state; with none, nothing. */
    method HandleReset()
      requires Valid()
      modifies this
      ensures Valid()
      ensures |old(lines)| == 0 ==> State() == old(State())
      ensures |old(lines)| > 0 ==> State() == ReadyState(old(videoId), old(lines), old(volume))
    {
      if |lines| == 0 {
        return;
      }
      ResetState(false, true);
      phase, round, error, countdown := Ready, NewRound, None, NoCountdown;
      playback := Playback(false, 0);
      refs := refs.(lastTimeMs := 0, lastNow := None);
    }

    /** `startRun` (the Replay button): the ready state with lines loaded, idle without. */
    method StartRun()
      requires Valid()
      modifies this
      ensures Valid()
      ensures |old(lines)| == 0 ==> State() == old(State()).(phase := Idle)
      ensures |old(lines)| > 0 ==> State() == ReadyState(old(videoId), old(lines), old(volume))
    {
      if |lines| == 0 {
        phase := Idle;
        return;
      }
      ResetState(false, true);
      phase := Ready;
      playback := Playback(false, 0);
      refs := refs.(lastTimeMs := 0, lastNow := None);
    }

    /** `handleVolume`: the volume, clamped to [0, 1]. */
    method HandleVolume(v: real)
      requires Valid()
      modifies this
      ensures Valid()
      ensures State() == old(State()).(volume := Clamp01(v))
    {
      volume := Clamp01(v);
    }

    /** The Space branch that skips a running countdown: play from the primed start at line 0. */
    method SkipRunningCountdown(now: int)
      requires Valid() && phase == Countdown
      modifies this
      ensures Valid()
      ensures State() == CountdownSkipped(old(State()), now)
    {
      var startMs := if refs.startSecMs > 0 then refs.startSecMs else 0;
      refs := refs.(startSecMs := startMs);
      countdown := CountdownState(Some(0), false);
      refs := refs.(introSkipped := false, pendingIntroSkip := false, countdownSkipped := true, manualStarted := true);
      phase := Playing;
      round := round.(currentIdx := 0, input := "", solvedEarly := false);
      countdown := NoCountdown;
      playback := playback.(currentTimeMs := startMs);
      refs := refs.(lastTimeMs := startMs, lastNow := Some(now));
      playback := playback.(isPlaying := true);
    }

    /**
     * The Space branch of the keyboard handler, given whether the clock is
     * before the first line (the intro flags already cleared if so).
     */
    method OnSpace(before: bool, now: int) returns (action: KeyAction)
      requires Valid() && (before ==> !refs.introSkipped)
      modifies this
      ensures Valid()
      ensures action == SpaceAction(old(phase), before, old(refs.introSkipped), old(playback.isPlaying))
      ensures action != ResetRun
      ensures State() == Acted(old(State()), action, now)
    {
      SpaceNeverResets(phase, before, refs.introSkipped, playback.isPlaying);
      action := SpaceAction(phase, before, refs.introSkipped, playback.isPlaying);
      match action {
        case SkipCountdown => SkipRunningCountdown(now);
        case CountdownToFirstLine => StartCountdownToFirstLine(now);
        case FromBeginning => StartFromBeginning(now);
        case SkipLineAndSeek => HandleSkipLine(true, now);
        case _ =>
      }
    }

    /**
     * The first step of the keyboard handler: report whether the clock (the
     * live reading, else the last known time) is more than 100 ms before the
     * first line, and if so clear the intro flags.
     */
    method ClearIntroBeforeFirstLine(live: Option<int>) returns (before: bool)
      requires Valid()
      modifies this`refs
      ensures Valid()
      ensures before == BeforeFirstLine(old(State()), live)
      ensures State() == IntroCleared(old(State()), live)
    {
      var t := if live.Some? then live.value else playback.currentTimeMs;
      before := t + OffsetMs < FirstLineStartMs(lines) - 100;
      if before && refs.introSkipped {
        refs := refs.(introSkipped := false, pendingIntroSkip := false, countdownSkipped := false);
      }
    }

    /**
     * The keyboard handler, given the player's live reading (`None` when not a
     * number) and the wall time. Before deciding, a clock more than 100 ms
     * before the first line clears the intro flags. F4 resets; Space acts by
     * `SpaceAction`; Escape skips the line while playing.
     */
    method OnKey(key: Key, live: Option<int>, now: int) returns (action: KeyAction)
      requires Valid()
      modifies this
      ensures Valid()
      ensures var before := BeforeFirstLine(old(State()), live);
              && (key == F4 ==> action == ResetRun)
              && (key == Space ==> action == SpaceAction(old(phase), before, old(refs.introSkipped) && !before, old(playback.isPlaying)))
              && (key == Escape ==> action == if old(phase) == Playing then SkipLine else NoAction)
              && (key == OtherKey ==> action == NoAction)
      ensures action == ResetRun ==> key == F4
      ensures State() == Acted(IntroCleared(old(State()), live), action, now)
    {
      var before := ClearIntroBeforeFirstLine(live);
      if key == F4 {
        action := ResetRun;
        HandleReset();
      } else if key == Space {
        action := OnSpace(before, now);
      } else if key == Escape && phase == Playing {
        action := SkipLine;
        HandleSkipLine(false, now);
      } else {
        action := NoAction;
      }
    }
  }
}
