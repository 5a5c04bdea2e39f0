/**
 * The flash session of src/components/Flash/FlashGame.tsx: a two-minute
 * session in which each prompt is shown for 1.5 s, then hidden and typed
 * from memory within ten seconds; the third timeout ends the session early.
 *
 * Every timer the component sets is a pending entry of `timers`, fired in
 * the order it was set (the delays make that order fixed); the wall clock
 * and `Math.random()` are parameters of the events that read them. Each
 * event is a spec function on the whole state (`FlashState`) that keeps
 * `ValidFlash`, and the `FlashSession` class's methods are proved to
 * perform it.
 */
module Flash {
  import opened Wrappers
  import opened Types
  import Num
  import Typing
  import TypingStore

  const SessionSeconds: nat := 120
  const RevealMs: nat := 1500
  const PerPromptSeconds: nat := 10
  const MaxTimeouts: nat := 3
  /** The pause after a timed-out prompt's answer before the next round or the end. */
  const AfterAnswerMs: nat := 800
  /** How many session records the stored list keeps. */
  const RecordLimit: nat := 200
  const PointsPerSolve: nat := 100

  datatype Phase = Idle | Countdown | Revealing | Hidden | ShowingAnswer | Finished

  /**
   * A pending timer: the countdown's steps to 2 and to 1 and its end, a
   * round's reveal, and the pause after a timed-out answer, which carries the
   * counters its callback's closure captured.
   */
  datatype Timer = ShowTwo | ShowOne | Go | RevealEnd | AfterAnswer(seen: Counters)

  datatype Counters = Counters(solved: nat, timeouts: nat, mistakes: nat)

  /** The two deadlines, in wall-clock ms: the session's and the hidden prompt's. */
  datatype Deadlines = Deadlines(sessionEndsAt: Option<int>, perEndsAt: Option<int>)

  /** What is drawn over the input: the answer after a timeout, and the countdown number. */
  datatype Display = Display(answer: Option<string>, countdown: Option<int>)

  /** One stored session record (its `mode` is always `flash`). */
  datatype SessionRecord = SessionRecord(startedAt: int, endedAt: int, solved: nat, mistakes: nat, timeouts: nat, points: nat)

  const NoCounters: Counters := Counters(0, 0, 0)
  const NoDeadlines: Deadlines := Deadlines(None, None)
  const NoDisplay: Display := Display(None, None)

  /** Every field of the session. */
  datatype FlashState = FlashState(
    prompts: seq<Prompt>, phase: Phase, current: Option<Prompt>, input: string,
    counters: Counters, deadlines: Deadlines, display: Display,
    timers: seq<Timer>, records: seq<SessionRecord>)

  /** During the countdown, the number shown is the number of its steps still pending. */
  predicate CountdownShows(timers: seq<Timer>, countdown: Option<int>) {
    || (timers == [ShowTwo, ShowOne, Go] && countdown == Some(3))
    || (timers == [ShowOne, Go] && countdown == Some(2))
    || (timers == [Go] && countdown == Some(1))
    || (timers == [] && countdown == None)
  }

  /** Which timers are pending in each phase. */
  predicate PendingFits(s: FlashState) {
    match s.phase
    case Countdown => CountdownShows(s.timers, s.display.countdown)
    case Revealing => s.timers == [RevealEnd]
    case ShowingAnswer =>
      && |s.timers| == 1 && s.timers[0].AfterAnswer?
      && s.counters == s.timers[0].seen.(timeouts := s.timers[0].seen.timeouts + 1)
    case _ => s.timers == []
  }

  /**
   * The session's invariant: the pending timers fit the phase; no mistake is
   * ever counted and at most three timeouts are; a fresh or counting-down
   * session has zero counters and a running round fewer than three timeouts;
   * a round on screen has a prompt from the list, a hidden one a deadline, a
   * timed-out one its answer shown; the stored list stays bounded.
   */
  predicate ValidFlash(s: FlashState) {
    && PendingFits(s)
    && s.counters.mistakes == 0
    && s.counters.timeouts <= MaxTimeouts
    && (s.phase == Idle || s.phase == Countdown ==> s.counters == NoCounters)
    && (s.phase == Revealing || s.phase == Hidden ==> s.counters.timeouts < MaxTimeouts)
    && (s.phase == Revealing || s.phase == Hidden || s.phase == ShowingAnswer ==> s.current.Some?)
    && (s.current.Some? ==> s.current.value in s.prompts)
    && (s.phase == Hidden ==> s.deadlines.perEndsAt.Some?)
    && (s.phase == ShowingAnswer && s.current.Some? ==> s.display.answer == Some(s.current.value.text))
    && |s.records| <= RecordLimit
  }

  /** `nextPrompt`: the prompt at `Math.floor(rand * n)`, or none from an empty list. */
  function NextPrompt(prompts: seq<Prompt>, rand: real): (r: Option<Prompt>)
    requires 0.0 <= rand < 1.0
    ensures r.None? <==> |prompts| == 0
    ensures r.Some? ==> r.value in prompts
  {
    if |prompts| == 0 then None else Some(prompts[TypingStore.FloorIndex(rand, |prompts|)])
  }

  /**
   * The record `endSession` writes from the counters it reads: the start is
   * approximated as two minutes before the end, and each solve is worth 100.
   */
  function RecordOf(c: Counters, now: int): (r: SessionRecord)
    ensures r.points == c.solved * PointsPerSolve
    ensures r.endedAt == now && r.endedAt - r.startedAt == SessionSeconds * 1000
    ensures r.solved == c.solved && r.mistakes == c.mistakes && r.timeouts == c.timeouts
  {
    SessionRecord(now - SessionSeconds * 1000, now, c.solved, c.mistakes, c.timeouts, c.solved * PointsPerSolve)
  }

  /** The stored list after one more record: appended, then cut to the newest 200. */
  function Stored(records: seq<SessionRecord>, r: SessionRecord): (out: seq<SessionRecord>)
    ensures |out| == Num.Min(|records| + 1, RecordLimit)
    ensures |out| > 0 && out[|out| - 1] == r
    ensures |records| < RecordLimit ==> out == records + [r]
  {
    TypingStore.LastNKeepsNewest(records, r, RecordLimit);
    TypingStore.LastN(records + [r], RecordLimit)
  }

  /** Before the new record, the stored list holds the newest of the old ones, in order. */
  lemma StoredKeepsNewest(records: seq<SessionRecord>, r: SessionRecord)
    ensures var out := Stored(records, r);
            out[..|out| - 1] == records[|records| + 1 - |out|..]
  {
    TypingStore.LastNKeepsNewest(records, r, RecordLimit);
    var out := Stored(records, r);
    assert out[..|out| - 1] == (records + [r])[|records| + 1 - |out|..|records|];
  }

  /** `startRound(p)`: nothing without a prompt; otherwise show it, clear the input and answer, and set its reveal timer. */
  function RoundStarted(s: FlashState, p: Option<Prompt>): (r: FlashState)
    ensures p.None? ==> r == s
    ensures p.Some? ==> r.phase == Revealing && r.current == p && r.input == "" && r.display.answer == None
    ensures p.Some? ==> r.timers == s.timers + [RevealEnd]
    ensures r.counters == s.counters && r.deadlines == s.deadlines && r.records == s.records && r.prompts == s.prompts
  {
    if p.None? then s
    else s.(phase := Revealing, current := p, input := "", display := s.display.(answer := None), timers := s.timers + [RevealEnd])
  }

  /**
   * `endSession`: nothing once finished; otherwise cancel the pending timers,
   * finish, and store the record of the counters read.
   */
  function Ended(s: FlashState, now: int): (r: FlashState)
    ensures s.phase == Finished ==> r == s
    ensures s.phase != Finished ==> r.phase == Finished && r.timers == []
    ensures s.phase != Finished ==> |r.records| > 0 && r.records[|r.records| - 1] == RecordOf(s.counters, now)
    ensures s.phase != Finished && |s.records| < RecordLimit ==> r.records == s.records + [RecordOf(s.counters, now)]
    ensures r.counters == s.counters && r.current == s.current && r.prompts == s.prompts && r.deadlines == s.deadlines
  {
    if s.phase == Finished then s
    else s.(phase := Finished, timers := [], records := Stored(s.records, RecordOf(s.counters, now)))
  }

  /**
   * `startSession`, from idle or finished only: cancel the pending timers,
   * zero the counters, clear the input and answer, and count down from 3.
   */
  function Started(s: FlashState): (r: FlashState)
    requires ValidFlash(s)
    ensures ValidFlash(r)
    ensures s.phase != Idle && s.phase != Finished ==> r == s
    ensures s.phase == Idle || s.phase == Finished ==>
              r.phase == Countdown && r.counters == NoCounters && r.input == "" && r.display == Display(None, Some(3))
              && |r.timers| == 3 && r.deadlines == s.deadlines && r.records == s.records
  {
    if s.phase != Idle && s.phase != Finished then s
    else s.(phase := Countdown, input := "", counters := NoCounters, display := Display(None, Some(3)), timers := [ShowTwo, ShowOne, Go])
  }

  /** The "play again" button of the results view: no session deadline, then `startSession`. */
  function PlayedAgain(s: FlashState): (r: FlashState)
    requires ValidFlash(s)
    ensures ValidFlash(r)
    ensures s.phase != Finished ==> r == s
    ensures s.phase == Finished ==> r.phase == Countdown && r.deadlines.sessionEndsAt == None && r.counters == NoCounters
  {
    if s.phase != Finished then s
    // The handler's own `setPhase('idle')` is not seen by `startSession`, which reads the rendered phase.
    else Started(s.(deadlines := s.deadlines.(sessionEndsAt := None)))
  }

  /**
   * The oldest pending timer fires at `now`: the countdown shows 2, then 1;
   * at its end it disappears, the session deadline is set two minutes on and
   * the first round starts; a reveal ends by hiding the prompt with ten
   * seconds to type it; after a timed-out answer, the third timeout ends the
   * session and an earlier one starts the next round.
   */
  function Fired(s: FlashState, now: int, rand: real): (r: FlashState)
    requires ValidFlash(s) && |s.timers| > 0 && 0.0 <= rand < 1.0
    ensures ValidFlash(r)
    ensures s.timers[0] == ShowTwo || s.timers[0] == ShowOne ==> r.timers == s.timers[1..]
    ensures s.timers[0] == ShowTwo ==> r.phase == Countdown && r.display.countdown == Some(2)
    ensures s.timers[0] == ShowOne ==> r.phase == Countdown && r.display.countdown == Some(1)
    ensures s.timers[0] == Go ==> r.display.countdown == None && r.deadlines.sessionEndsAt == Some(now + SessionSeconds * 1000)
    ensures s.timers[0] == Go && |s.prompts| > 0 ==> r.phase == Revealing && r.current.Some?
    ensures s.timers[0] == RevealEnd ==>
              r.phase == Hidden && r.current == s.current && r.deadlines.perEndsAt == Some(now + PerPromptSeconds * 1000)
    ensures s.timers[0].AfterAnswer? ==>
              if s.counters.timeouts >= MaxTimeouts then r == Ended(s.(timers := []), now)
              else r.phase == Revealing && r.counters == s.counters
  {
    var rest := s.timers[1..];
    match s.timers[0]
    case ShowTwo => s.(display := s.display.(countdown := Some(2)), timers := rest)
    case ShowOne => s.(display := s.display.(countdown := Some(1)), timers := rest)
    case Go =>
      RoundStarted(s.(display := s.display.(countdown := None), timers := rest,
                      deadlines := s.deadlines.(sessionEndsAt := Some(now + SessionSeconds * 1000))),
                   NextPrompt(s.prompts, rand))
    case RevealEnd =>
      s.(phase := Hidden, deadlines := s.deadlines.(perEndsAt := Some(now + PerPromptSeconds * 1000)), timers := rest)
    case AfterAnswer(_) =>
      if s.counters.timeouts >= MaxTimeouts then Ended(s.(timers := rest), now)
      else RoundStarted(s.(timers := rest), NextPrompt(s.prompts, rand))
  }

  /** Whether the session deadline has passed at `now` (a deadline of 0 reads as none). */
  predicate SessionDue(s: FlashState, now: int) {
    s.deadlines.sessionEndsAt.Some? && s.deadlines.sessionEndsAt.value != 0 && now >= s.deadlines.sessionEndsAt.value
  }

  /** The 250 ms clock and the deadline effect: once the session deadline has passed, end the session. */
  function SessionTicked(s: FlashState, now: int): (r: FlashState)
    requires ValidFlash(s)
    ensures ValidFlash(r)
    ensures !SessionDue(s, now) ==> r == s
    ensures SessionDue(s, now) ==> r == Ended(s, now)
  {
    if SessionDue(s, now) then Ended(s, now) else s
  }

  /** Whether the hidden prompt's deadline has passed at `now`. */
  predicate PromptDue(s: FlashState, now: int) {
    s.phase == Hidden && s.deadlines.perEndsAt.Some? && s.deadlines.perEndsAt.value != 0 && now >= s.deadlines.perEndsAt.value
  }

  /**
   * The per-prompt watch while hidden (`onTimeOut`): at the deadline show the
   * answer, count the timeout, and set the after-answer timer, whose closure
   * sees the counters before this timeout.
   */
  function PromptTicked(s: FlashState, now: int): (r: FlashState)
    requires ValidFlash(s)
    ensures ValidFlash(r)
    ensures !PromptDue(s, now) ==> r == s
    ensures PromptDue(s, now) ==>
              && r.phase == ShowingAnswer && r.display.answer == Some(s.current.value.text)
              && r.counters == s.counters.(timeouts := s.counters.timeouts + 1)
              && r.timers == [AfterAnswer(s.counters)]
              && r.current == s.current && r.records == s.records && r.deadlines == s.deadlines
  {
    if !PromptDue(s, now) then s
    else s.(phase := ShowingAnswer, display := s.display.(answer := Some(s.current.value.text)),
            counters := s.counters.(timeouts := s.counters.timeouts + 1),
            timers := s.timers + [AfterAnswer(s.counters)])
  }

  /**
   * `onChange(v)`, which only a hidden prompt's enabled input sends: keep the
   * value; an accepted spelling of the prompt's romaji counts a solve and
   * starts the next round. A wrong value is never blocked nor counted.
   */
  function Changed(s: FlashState, v: string, rand: real): (r: FlashState)
    requires ValidFlash(s) && 0.0 <= rand < 1.0
    ensures ValidFlash(r)
    ensures s.phase != Hidden ==> r == s
    ensures s.phase == Hidden && !Typing.IsAcceptedRomaji(v, s.current.value.romaji) ==> r == s.(input := v)
    ensures s.phase == Hidden && Typing.IsAcceptedRomaji(v, s.current.value.romaji) ==>
              && r.counters == s.counters.(solved := s.counters.solved + 1)
              && r.phase == Revealing && r.input == "" && r.current.Some?
  {
    if s.phase != Hidden then s
    else if Typing.IsAcceptedRomaji(v, s.current.value.romaji) then
      RoundStarted(s.(input := v, counters := s.counters.(solved := s.counters.solved + 1)), NextPrompt(s.prompts, rand))
    else s.(input := v)
  }

  /**
   * The Reset button (disabled while idle): cancel the pending timers and go
   * back to idle with no prompt, counters, deadlines, answer or countdown.
   */
  function Cleared(s: FlashState): (r: FlashState)
    requires ValidFlash(s)
    ensures ValidFlash(r)
    ensures r.phase == Idle && r.timers == [] && r.counters == NoCounters
    ensures s.phase != Idle ==> r.current == None && r.deadlines == NoDeadlines && r.display == NoDisplay && r.input == ""
    ensures r.records == s.records && r.prompts == s.prompts
  {
    if s.phase == Idle then s
    else s.(phase := Idle, current := None, input := "", counters := NoCounters,
            deadlines := NoDeadlines, display := NoDisplay, timers := [])
  }

  /**
   * Start, count down and begin: three seconds after "Start" the countdown
   * has shown 3, 2, 1, the session deadline is two minutes on and a prompt
   * from the list is being revealed.
   */
  lemma {:induction false} CountdownReachesFirstRound(s: FlashState, t1: int, t2: int, now: int, rand: real)
    requires ValidFlash(s) && s.phase == Idle && |s.prompts| > 0 && 0.0 <= rand < 1.0 && now >= 0
    ensures var s0 := Started(s);
            var s1 := Fired(s0, t1, rand);
            var s2 := Fired(s1, t2, rand);
            var s3 := Fired(s2, now, rand);
            && s0.display.countdown == Some(3) && s1.display.countdown == Some(2) && s2.display.countdown == Some(1)
            && s3.phase == Revealing && s3.current.Some? && s3.current.value in s.prompts
            && s3.display.countdown == None && RemainingSec(s3.deadlines.sessionEndsAt, now) == SessionSeconds
  {
    var s0 := Started(s);
    var s1 := Fired(s0, t1, rand);
    assert s1.timers == [ShowOne, Go];
    var s2 := Fired(s1, t2, rand);
    assert s2.timers == [Go];
    var s3 := Fired(s2, now, rand);
    assert s3.deadlines.sessionEndsAt == Some(now + SessionSeconds * 1000);
    Num.CeilDivOfMultiple(SessionSeconds, 1000);
    assert RemainingSec(s3.deadlines.sessionEndsAt, now) == SessionSeconds;
    assert s3.current.value in s3.prompts;
  }

  /**
   * A round: when the reveal ends the prompt is hidden with ten seconds on
   * its clock; typing an accepted spelling then counts one solve and reveals
   * the next prompt.
   */
  lemma {:induction false} RevealThenSolve(s: FlashState, now: int, v: string, rand: real)
    requires ValidFlash(s) && s.phase == Revealing && 0.0 <= rand < 1.0 && now >= 0
    requires Typing.IsAcceptedRomaji(v, s.current.value.romaji)
    ensures var h := Fired(s, now, rand);
            var n := Changed(h, v, rand);
            && h.phase == Hidden && h.current == s.current
            && PerRemaining(h.deadlines.perEndsAt, h.phase, now) == Some(PerPromptSeconds)
            && n.phase == Revealing && n.counters.solved == s.counters.solved + 1
            && n.counters.timeouts == s.counters.timeouts
  {
    var h := Fired(s, now, rand);
    assert h.counters == s.counters && h.phase == Hidden && h.current == s.current;
    Num.CeilDivOfMultiple(PerPromptSeconds, 1000);
    assert PerRemaining(h.deadlines.perEndsAt, h.phase, now) == Some(PerPromptSeconds);
    var n := Changed(h, v, rand);
    assert n.phase == Revealing;
  }

  /**
   * The third timeout ends the session once its answer has been shown, and
   * the stored record counts all three timeouts; no life is left.
   */
  lemma {:induction false} ThirdTimeoutRecorded(s: FlashState, now: int, later: int, rand: real)
    requires ValidFlash(s) && PromptDue(s, now) && s.counters.timeouts == MaxTimeouts - 1 && 0.0 <= rand < 1.0
    ensures var t := PromptTicked(s, now);
            var f := Fired(t, later, rand);
            && t.phase == ShowingAnswer && t.counters.timeouts == MaxTimeouts
            && f.phase == Finished && f.timers == []
            && f.records[|f.records| - 1] == RecordOf(s.counters.(timeouts := MaxTimeouts), later)
            && LifeHearts(MaxTimeouts - f.counters.timeouts) == ""
  {
    var t := PromptTicked(s, now);
    assert t.timers[0] == AfterAnswer(s.counters);
  }

  /**
   * The session deadline passing during the after-answer pause ends the
   * session once, with one record, and cancels the pause.
   */
  lemma {:induction false} DeadlineDuringAnswerRecordsOnce(s: FlashState, now: int)
    requires ValidFlash(s) && s.phase == ShowingAnswer && SessionDue(s, now) && |s.records| < RecordLimit
    ensures var e := SessionTicked(s, now);
            && e.phase == Finished && e.timers == []
            && e.records == s.records + [RecordOf(s.counters, now)]
  {
  }

  /** Reset leaves nothing pending, so no round can start before "Start". */
  lemma {:induction false} ResetCancelsEverything(s: FlashState)
    requires ValidFlash(s) && s.phase == ShowingAnswer
    ensures var c := Cleared(s);
            && c.phase == Idle && c.timers == [] && c.current == None && c.deadlines.sessionEndsAt == None
            && Started(c).phase == Countdown
  {
  }

  // The after-answer timer as written: `onTimeOut` does not push its id into
  // `timers`, so `clearTimers` leaves it pending, and the callback calls the
  // `endSession` of the render that scheduled it, whose phase (hidden) and
  // counters (before the timeout) are that render's.

  /** The timers `clearTimers` leaves pending as written: the untracked after-answer ones. */
  function UntrackedAsWritten(ts: seq<Timer>): (r: seq<Timer>)
    ensures |r| <= |ts|
    ensures forall i :: 0 <= i < |r| ==> r[i].AfterAnswer?
    ensures forall i :: 0 <= i < |ts| && ts[i].AfterAnswer? ==> ts[i] in r
  {
    if ts == [] then []
    else
      var tail := UntrackedAsWritten(ts[1..]);
      assert forall i :: 1 <= i < |ts| ==> ts[i] == ts[1..][i - 1];
      if ts[0].AfterAnswer? then [ts[0]] + tail else tail
  }

  /** Exactly the after-answer timers stay pending, each as often as it was: no other timer, none added. */
  lemma {:induction false} UntrackedKeepsExactly(ts: seq<Timer>)
    ensures var r := UntrackedAsWritten(ts);
            forall t: Timer :: multiset(r)[t] == if t.AfterAnswer? then multiset(ts)[t] else 0
  {
    if ts != [] {
      UntrackedKeepsExactly(ts[1..]);
      assert ts == [ts[0]] + ts[1..];
      assert multiset(ts) == multiset([ts[0]]) + multiset(ts[1..]);
      var tail := UntrackedAsWritten(ts[1..]);
      if ts[0].AfterAnswer? {
        assert multiset(UntrackedAsWritten(ts)) == multiset([ts[0]]) + multiset(tail);
      }
    }
  }

  /** `endSession` as written, reached from the deadline effect: the after-answer timer survives it. */
  function EndedAsWritten(s: FlashState, now: int): (r: FlashState)
    ensures s.phase == Finished ==> r == s
    ensures r.phase == Finished
    ensures s.phase != Finished ==>
              && |r.records| > 0 && r.records[|r.records| - 1] == RecordOf(s.counters, now)
              && (forall i :: 0 <= i < |s.timers| && s.timers[i].AfterAnswer? ==> s.timers[i] in r.timers)
              && (forall i :: 0 <= i < |r.timers| ==> r.timers[i].AfterAnswer?)
  {
    Ended(s, now).(timers := if s.phase == Finished then s.timers else UntrackedAsWritten(s.timers))
  }

  /** The Reset button as written: the after-answer timer survives it. */
  function ClearedAsWritten(s: FlashState): (r: FlashState)
    requires ValidFlash(s)
    ensures r.phase == Idle && r.counters == NoCounters && r.records == s.records
    ensures s.phase != Idle ==> r.deadlines == NoDeadlines && r.current == None
    ensures forall i :: 0 <= i < |s.timers| && s.timers[i].AfterAnswer? ==> s.timers[i] in r.timers
    ensures s.phase != Idle ==> forall i :: 0 <= i < |r.timers| ==> r.timers[i].AfterAnswer?
  {
    Cleared(s).(timers := if s.phase == Idle then s.timers else UntrackedAsWritten(s.timers))
  }

  /**
   * The after-answer callback as written, with the counters `seen` by its
   * closure: the third timeout ends the session with those counters, without
   * seeing that it may have ended already; otherwise the next round starts,
   * whatever the phase is by now.
   */
  function AfterAnswerAsWritten(s: FlashState, seen: Counters, now: int, rand: real): (r: FlashState)
    requires 0.0 <= rand < 1.0
    ensures seen.timeouts + 1 >= MaxTimeouts ==>
              r.phase == Finished && |r.records| > 0 && r.records[|r.records| - 1] == RecordOf(seen, now)
    ensures seen.timeouts + 1 < MaxTimeouts && |s.prompts| > 0 ==>
              r.phase == Revealing && r.current.Some? && r.deadlines == s.deadlines && r.counters == s.counters
  {
    if seen.timeouts + 1 >= MaxTimeouts then
      s.(phase := Finished, timers := UntrackedAsWritten(s.timers), records := Stored(s.records, RecordOf(seen, now)))
    else RoundStarted(s, NextPrompt(s.prompts, rand))
  }

  /** As written, the session the third timeout ends is stored with two timeouts. */
  lemma {:induction false} StaleRecordAsWritten(s: FlashState, now: int, later: int, rand: real)
    requires ValidFlash(s) && PromptDue(s, now) && s.counters.timeouts == MaxTimeouts - 1 && 0.0 <= rand < 1.0
    ensures var t := PromptTicked(s, now);
            var w := AfterAnswerAsWritten(t.(timers := []), t.timers[0].seen, later, rand);
            && t.counters.timeouts == 3
            && w.phase == Finished && w.records[|w.records| - 1].timeouts == 2
  {
    var t := PromptTicked(s, now);
    assert t.timers[0].seen == s.counters;
  }

  /**
   * As written, Reset during the pause after a first or second timeout does
   * not stop the next round: it starts on the idle screen, with no session
   * deadline to end it.
   */
  lemma {:induction false} ResetLeavesRoundAsWritten(s: FlashState, later: int, rand: real)
    requires ValidFlash(s) && s.phase == ShowingAnswer && s.counters.timeouts < MaxTimeouts && 0.0 <= rand < 1.0
    ensures var c := ClearedAsWritten(s);
            var w := AfterAnswerAsWritten(c.(timers := []), s.timers[0].seen, later, rand);
            && c.phase == Idle && c.timers == s.timers
            && w.phase == Revealing && w.deadlines.sessionEndsAt == None
  {
    var c := ClearedAsWritten(s);
    assert UntrackedAsWritten(s.timers) == s.timers by {
      assert UntrackedAsWritten(s.timers[1..]) == [];
    }
    assert c.timers == s.timers;
  }

  /**
   * As written, a session deadline passing during the pause after the third
   * timeout stores the session twice.
   */
  lemma {:induction false} DeadlineDuringAnswerAsWritten(s: FlashState, seen: Counters, now: int, later: int, rand: real)
    requires ValidFlash(s) && s.phase == ShowingAnswer && s.timers == [AfterAnswer(seen)]
    requires s.counters.timeouts == MaxTimeouts
    requires SessionDue(s, now) && |s.records| + 2 <= RecordLimit && 0.0 <= rand < 1.0
    ensures var e := EndedAsWritten(s, now);
            var w := AfterAnswerAsWritten(e.(timers := []), seen, later, rand);
            && e.phase == Finished && e.timers == s.timers
            && w.records == s.records + [RecordOf(s.counters, now), RecordOf(seen, later)]
  {
    AnswerPending(s);
    var e := EndedAsWritten(s, now);
    EndedAsWrittenKeepsAnswer(s, now);
    ThirdTimeoutStoresSeen(e.(timers := []), seen, later, rand);
    AppendTwo(s.records, RecordOf(s.counters, now), RecordOf(seen, later));
  }

  /** While an answer is shown, its one pending timer saw the counters before the timeout. */
  lemma {:induction false} AnswerPending(s: FlashState)
    requires ValidFlash(s) && s.phase == ShowingAnswer
    ensures |s.timers| == 1 && s.timers[0].AfterAnswer?
    ensures s.timers[0].seen.timeouts + 1 == s.counters.timeouts
  { }

  lemma AppendTwo<T>(xs: seq<T>, a: T, b: T)
    ensures (xs + [a]) + [b] == xs + [a, b]
  { }

  /** As written, ending a session paused on an answer leaves its after-answer timer pending. */
  lemma {:induction false} EndedAsWrittenKeepsAnswer(s: FlashState, now: int)
    requires s.phase == ShowingAnswer && |s.timers| == 1 && s.timers[0].AfterAnswer? && |s.records| < RecordLimit
    ensures var e := EndedAsWritten(s, now);
            && e.phase == Finished && e.timers == s.timers
            && e.records == s.records + [RecordOf(s.counters, now)]
  {
    assert UntrackedAsWritten(s.timers) == s.timers by {
      assert UntrackedAsWritten(s.timers[1..]) == [];
    }
  }

  /** As written, the callback that saw a third timeout stores its counters, whatever the phase is by now. */
  lemma {:induction false} ThirdTimeoutStoresSeen(s: FlashState, seen: Counters, now: int, rand: real)
    requires seen.timeouts + 1 >= MaxTimeouts && |s.records| < RecordLimit && 0.0 <= rand < 1.0
    ensures var w := AfterAnswerAsWritten(s, seen, now, rand);
            && w.phase == Finished && w.records == s.records + [RecordOf(seen, now)]
  { }

  /** `remainingSec`: the seconds left before the session deadline; 0 without one. */
  function RemainingSec(sessionEndsAt: Option<int>, now: int): (r: nat)
    ensures sessionEndsAt.None? || sessionEndsAt.value == 0 ==> r == 0
    ensures sessionEndsAt.Some? && sessionEndsAt.value != 0 ==> r == Num.SecondsLeft(sessionEndsAt.value, now)
  {
    if sessionEndsAt.None? || sessionEndsAt.value == 0 then 0
    else Num.SecondsLeft(sessionEndsAt.value, now)
  }

  /** `perRemaining`: the seconds left before the prompt's deadline, shown only while the prompt is hidden. */
  function PerRemaining(perEndsAt: Option<int>, phase: Phase, now: int): (r: Option<nat>)
    ensures r.Some? <==> perEndsAt.Some? && perEndsAt.value != 0 && phase == Hidden
    ensures r.Some? ==> r.value == Num.SecondsLeft(perEndsAt.value, now)
  {
    if perEndsAt.None? || perEndsAt.value == 0 || phase != Hidden then None
    else Some(Num.SecondsLeft(perEndsAt.value, now))
  }

  /** The heart drawn per remaining life (two code units: the heart and its text-style selector). */
  const Heart: string := "❤︎"

  /** `lifeHearts(n)`: one heart per remaining life, none for a count below 1. */
  function LifeHearts(n: int): (r: string)
    ensures |r| == 2 * Num.Max(0, n)
    ensures forall i :: 0 <= i < |r| ==> r[i] == Heart[i % 2]
    decreases n
  {
    if n <= 0 then "" else
      var tail := LifeHearts(n - 1);
      assert forall i :: 2 <= i < 2 + |tail| ==> (Heart + tail)[i] == tail[i - 2];
      Heart + tail
  }

  class FlashSession {
    var prompts: seq<Prompt>
    var phase: Phase
    var current: Option<Prompt>
    var input: string
    var counters: Counters
    var deadlines: Deadlines
    var display: Display
    /** The timers set and not yet fired or cancelled, oldest first. */
    var timers: seq<Timer>
    /** The stored session list. */
    var records: seq<SessionRecord>

    function State(): FlashState
      reads this
    {
      FlashState(prompts, phase, current, input, counters, deadlines, display, timers, records)
    }

    ghost predicate Valid()
      reads this
    {
      ValidFlash(State())
    }

    /** The component's first render, over the store's prompts and the stored list. */
    constructor(prompts: seq<Prompt>, stored: seq<SessionRecord>)
      requires |stored| <= RecordLimit
      ensures Valid()
      ensures State() == FlashState(prompts, Idle, None, "", NoCounters, NoDeadlines, NoDisplay, [], stored)
    {
      this.prompts := prompts;
      phase, current, input := Idle, None, "";
      counters, deadlines, display := NoCounters, NoDeadlines, NoDisplay;
      timers, records := [], stored;
    }

    /** The "Start" button. */
    method StartSession()
      requires Valid()
      modifies this`phase, this`input, this`counters, this`display, this`timers
      ensures Valid()
      ensures State() == Started(old(State()))
    {
      if phase != Idle && phase != Finished {
        return;
      }
      phase, input, counters := Countdown, "", NoCounters;
      display := Display(None, Some(3));
      timers := [ShowTwo, ShowOne, Go];
    }

    /** The "play again" button. */
    method PlayAgain()
      requires Valid()
      modifies this`phase, this`input, this`counters, this`display, this`timers, this`deadlines
      ensures Valid()
      ensures State() == PlayedAgain(old(State()))
    {
      if phase != Finished {
        return;
      }
      deadlines := deadlines.(sessionEndsAt := None);
      StartSession();
    }

    method StartRound(p: Option<Prompt>)
      modifies this`phase, this`current, this`input, this`display, this`timers
      ensures State() == RoundStarted(old(State()), p)
    {
      if p.None? {
        return;
      }
      phase, current, input := Revealing, p, "";
      display := display.(answer := None);
      timers := timers + [RevealEnd];
    }

    method EndSession(now: int)
      modifies this`phase, this`timers, this`records
      ensures State() == Ended(old(State()), now)
    {
      if phase == Finished {
        return;
      }
      phase, timers := Finished, [];
      records := Stored(records, RecordOf(counters, now));
    }

    /** The oldest pending timer fires at `now`; `rand` draws the next prompt. */
    method FireNext(now: int, rand: real)
      requires Valid() && |timers| > 0 && 0.0 <= rand < 1.0
      modifies this`phase, this`current, this`input, this`display, this`timers, this`deadlines, this`records
      ensures Valid()
      ensures State() == Fired(old(State()), now, rand)
    {
      var t := timers[0];
      timers := timers[1..];
      match t
      case ShowTwo =>
        display := display.(countdown := Some(2));
      case ShowOne =>
        display := display.(countdown := Some(1));
      case Go =>
        display := display.(countdown := None);
        deadlines := deadlines.(sessionEndsAt := Some(now + SessionSeconds * 1000));
        StartRound(NextPrompt(prompts, rand));
      case RevealEnd =>
        phase := Hidden;
        deadlines := deadlines.(perEndsAt := Some(now + PerPromptSeconds * 1000));
      case AfterAnswer(_) =>
        if counters.timeouts >= MaxTimeouts {
          EndSession(now);
        } else {
          StartRound(NextPrompt(prompts, rand));
        }
    }

    /** A tick of the 250 ms clock at `now`. */
    method SessionTick(now: int)
      requires Valid()
      modifies this`phase, this`timers, this`records
      ensures Valid()
      ensures State() == SessionTicked(old(State()), now)
    {
      if deadlines.sessionEndsAt.Some? && deadlines.sessionEndsAt.value != 0 && now >= deadlines.sessionEndsAt.value {
        EndSession(now);
      }
    }

    /** A tick of the 100 ms per-prompt watch at `now`. */
    method PromptTick(now: int)
      requires Valid()
      modifies this`phase, this`display, this`counters, this`timers
      ensures Valid()
      ensures State() == PromptTicked(old(State()), now)
    {
      if phase == Hidden && deadlines.perEndsAt.Some? && deadlines.perEndsAt.value != 0 && now >= deadlines.perEndsAt.value {
        var seen := counters;
        display, phase, timers, counters :=
          display.(answer := Some(current.value.text)), ShowingAnswer, timers + [AfterAnswer(seen)],
          seen.(timeouts := seen.timeouts + 1);
      }
    }

    /** The input's `onChange` with value `v`. */
    method OnChange(v: string, rand: real)
      requires Valid() && 0.0 <= rand < 1.0
      modifies this`input, this`counters, this`phase, this`current, this`display, this`timers
      ensures Valid()
      ensures State() == Changed(old(State()), v, rand)
    {
      if phase != Hidden {
        return;
      }
      var accepted := Typing.IsAcceptedRomaji(v, current.value.romaji);
      input := v;
      if accepted {
        counters := counters.(solved := counters.solved + 1);
        StartRound(NextPrompt(prompts, rand));
      }
    }

    /** The Reset button. */
    method Reset()
      requires Valid()
      modifies this`phase, this`current, this`input, this`counters, this`deadlines, this`display, this`timers
      ensures Valid()
      ensures State() == Cleared(old(State()))
    {
      if phase == Idle {
        return;
      }
      timers := [];
      phase, current, input := Idle, None, "";
      counters, deadlines, display := NoCounters, NoDeadlines, NoDisplay;
    }
  }
}
