/**
 * The room overlay of src/components/Multi/Overlay.tsx: the race clock and
 * the 3-2-1-GO countdown derived from the room's start time, the players'
 * ranking, the bridge that turns local game events into progress reports,
 * and the guard that starts the local game once.
 *
 * The room itself (its players, start time and mode) comes from the room
 * client, which is not part of this model; its values are parameters here,
 * and `sendProgress` is a log of the reports sent.
 */
module Overlay {
  import opened Wrappers
  import Num
  import Text

  /** A start time or deadline that JavaScript reads as false: none, or 0. */
  predicate Unset(t: Option<int>) {
    t.None? || t.value == 0
  }

  /** `endsAt`: the race's deadline in ms, `durationSec` after the start; none without a start. */
  function EndsAt(startAt: Option<int>, durationSec: int): (r: Option<int>)
    ensures r.None? <==> Unset(startAt)
    ensures r.Some? ==> r.value - startAt.value == durationSec * 1000
  {
    if Unset(startAt) then None else Some(startAt.value + durationSec * 1000)
  }

  /**
   * `remainingSec`: none without a deadline; otherwise the whole seconds to
   * the deadline, rounded up, and 0 once it has passed.
   */
  function RemainingSec(endsAt: Option<int>, now: int): (r: Option<nat>)
    ensures r.None? <==> Unset(endsAt)
    ensures r.Some? && now >= endsAt.value ==> r.value == 0
    ensures r.Some? && now < endsAt.value ==> r.value > 0 && (r.value - 1) * 1000 < endsAt.value - now <= r.value * 1000
  {
    if Unset(endsAt) then None else Some(Num.SecondsLeft(endsAt.value, now))
  }

  /**
   * At the start the clock shows the whole duration, and it never goes up
   * while the race runs.
   */
  lemma {:induction false} ClockRunsDown(startAt: int, durationSec: nat, now: int, later: int)
    requires startAt != 0 && startAt + durationSec * 1000 != 0 && now <= later
    ensures RemainingSec(EndsAt(Some(startAt), durationSec), startAt) == Some(durationSec)
    ensures RemainingSec(EndsAt(Some(startAt), durationSec), later).value <= RemainingSec(EndsAt(Some(startAt), durationSec), now).value
  {
    var endsAt := startAt + durationSec * 1000;
    Num.CeilDivOfMultiple(durationSec, 1000);
    assert endsAt - startAt == durationSec * 1000;
    Num.SecondsLeftMonotone(endsAt, now, later);
  }

  /**
   * The big countdown: none without a start time, more than three seconds
   * before it, or from 300 ms after it; otherwise the seconds to the start
   * rounded up, or 0 ("GO") once the start is reached.
   */
  function Countdown(startAt: Option<int>, now: int): (r: Option<nat>)
    ensures r.None? <==> Unset(startAt) || startAt.value - now <= -300 || startAt.value - now > 3000
    ensures r.Some? ==> r.value <= 3
    ensures r == Some(0) <==> !Unset(startAt) && -300 < startAt.value - now <= 0
    ensures r.Some? && r.value > 0 ==> (r.value - 1) * 1000 < startAt.value - now <= r.value * 1000
  {
    if Unset(startAt) then None
    else
      var ms := startAt.value - now;
      if ms <= -300 || ms > 3000 then None
      else
        var sec := Num.CeilDiv(ms, 1000);
        if sec > 0 then Some(sec) else Some(0)
  }

  /**
   * The countdown shows 3, 2 and 1 at whole seconds before the start and
   * "GO" for the first 300 ms after it, then disappears.
   */
  lemma {:induction false} CountdownShowsThreeTwoOneGo(startAt: int, k: nat, now: int)
    requires startAt != 0
    ensures 1 <= k <= 3 ==> Countdown(Some(startAt), startAt - k * 1000) == Some(k)
    ensures startAt <= now < startAt + 300 ==> Countdown(Some(startAt), now) == Some(0)
    ensures now >= startAt + 300 || now < startAt - 3000 ==> Countdown(Some(startAt), now) == None
  {
    if 1 <= k <= 3 {
      Num.CeilDivOfMultiple(k, 1000);
      assert startAt - (startAt - k * 1000) == k * 1000;
    }
  }

  /** The clock text in the overlay's header: shown only with a deadline once the race has started. */
  function ClockText(remainingSec: Option<nat>, started: bool): (r: Option<string>)
    ensures r.Some? <==> remainingSec.Some? && started
    ensures r.Some? ==> Text.ShowsClock(r.value, remainingSec.value)
  {
    if remainingSec.Some? && started then
      Text.MmSsReadsBack(remainingSec.value);
      Some(Text.MmSs(remainingSec.value))
    else None
  }

  // ---------------------------------------------------------------------------
  // The ranking

  /** A room member as the room reports it. */
  datatype Player = Player(id: string, name: string, score: int, correctCount: int, mistakeCount: int)

  /** The ranking order: a higher score first, then fewer mistakes. */
  predicate RanksAbove(a: Player, b: Player) {
    a.score > b.score || (a.score == b.score && a.mistakeCount < b.mistakeCount)
  }

  /** No player is ranked below a later one. */
  predicate Ranked(s: seq<Player>) {
    forall i, j :: 0 <= i < j < |s| ==> !RanksAbove(s[j], s[i])
  }

  /**
   * Insert a player before the first one it ranks above; it goes after the
   * players it ties with, which keeps the sort stable.
   */
  function InsertPlayer(p: Player, s: seq<Player>): (r: seq<Player>)
    ensures multiset(r) == multiset(s) + multiset{p}
    decreases |s|
  {
    if s == [] then [p]
    else if RanksAbove(p, s[0]) then [p] + s
    else
      assert s == [s[0]] + s[1..];
      [s[0]] + InsertPlayer(p, s[1..])
  }

  /** The table's rows: the players sorted into ranking order. */
  function Ranking(players: seq<Player>): (r: seq<Player>)
    ensures multiset(r) == multiset(players)
    decreases |players|
  {
    if players == [] then []
    else
      var last := |players| - 1;
      assert players == players[..last] + [players[last]];
      InsertPlayer(players[last], Ranking(players[..last]))
  }

  lemma {:induction false} InsertPlayerRanked(p: Player, s: seq<Player>)
    requires Ranked(s)
    ensures Ranked(InsertPlayer(p, s))
    decreases |s|
  {
    if s != [] && !RanksAbove(p, s[0]) {
      InsertPlayerRanked(p, s[1..]);
      var tail := InsertPlayer(p, s[1..]);
      forall y | y in tail
        ensures !RanksAbove(y, s[0])
      {
        assert y in multiset(tail);
        if y != p {
          assert y in s[1..];
        }
      }
    } else if s != [] {
      forall j | 0 <= j < |s|
        ensures !RanksAbove(s[j], p)
      {
      }
    }
  }

  /** The ranking lists every player once, none ranked above one listed before it. */
  lemma {:induction false} RankingSorts(players: seq<Player>)
    ensures Ranked(Ranking(players)) && multiset(Ranking(players)) == multiset(players)
    decreases |players|
  {
    if players != [] {
      var last := |players| - 1;
      RankingSorts(players[..last]);
      InsertPlayerRanked(players[last], Ranking(players[..last]));
    }
  }

  /** The crowned first row has the top score, and the fewest mistakes among those with it. */
  lemma {:induction false} FirstRowLeads(players: seq<Player>)
    requires players != []
    ensures |Ranking(players)| == |players|
    ensures forall p :: p in players ==> p.score <= Ranking(players)[0].score
    ensures forall p :: p in players && p.score == Ranking(players)[0].score ==> Ranking(players)[0].mistakeCount <= p.mistakeCount
  {
    RankingSorts(players);
    var r := Ranking(players);
    assert |r| == |multiset(r)| == |multiset(players)| == |players|;
    forall p | p in players
      ensures !RanksAbove(p, r[0])
    {
      assert p in multiset(r);
      var j :| 0 <= j < |r| && r[j] == p;
    }
  }

  // ---------------------------------------------------------------------------
  // Progress reports

  /** Which local game raised an event; the overlay treats both alike. */
  datatype Game = PracticeGame | FlashGame

  datatype Kind = Correct | Mistake | Timeout

  /** A `typing:<game>-<kind>` window event. */
  datatype Event = Event(game: Game, kind: Kind)

  /** The totals passed to `sendProgress`. */
  datatype Report = Report(score: int, correctCount: int, mistakeCount: int, timeouts: int)

  /** The overlay's local totals and the reports it has sent. */
  datatype Bridge = Bridge(score: nat, correct: nat, mistakes: nat, timeouts: nat, sent: seq<Report>)

  function Totals(b: Bridge): Report {
    Report(b.score, b.correct, b.mistakes, b.timeouts)
  }

  /**
   * The bridge's invariant: each correct answer is worth 10 points, one
   * report was sent per event, and the last report carries the totals.
   */
  predicate ValidBridge(b: Bridge) {
    && b.score == 10 * b.correct
    && |b.sent| == b.correct + b.mistakes + b.timeouts
    && (b.sent != [] ==> b.sent[|b.sent| - 1] == Totals(b))
  }

  const NoProgress := Bridge(0, 0, 0, 0, [])

  /**
   * One event, when in a room (the listeners are attached only then): a
   * correct answer adds one solve and 10 points, a mistake or a time-out
   * one to its count, and the new totals are reported.
   */
  function Handled(b: Bridge, inRoom: bool, e: Event): (r: Bridge)
    requires ValidBridge(b)
    ensures ValidBridge(r)
    ensures !inRoom ==> r == b
    ensures inRoom ==> r.sent == b.sent + [Totals(r)]
    ensures inRoom && e.kind == Correct ==> r.correct == b.correct + 1 && r.score == b.score + 10 && r.mistakes == b.mistakes && r.timeouts == b.timeouts
    ensures inRoom && e.kind == Mistake ==> r.mistakes == b.mistakes + 1 && r.score == b.score && r.correct == b.correct && r.timeouts == b.timeouts
    ensures inRoom && e.kind == Timeout ==> r.timeouts == b.timeouts + 1 && r.score == b.score && r.correct == b.correct && r.mistakes == b.mistakes
  {
    if !inRoom then b
    else
      match e.kind
      case Correct =>
        var n := b.correct + 1;
        b.(correct := n, score := b.score + 10, sent := b.sent + [Report(b.score + 10, n, b.mistakes, b.timeouts)])
      case Mistake =>
        var n := b.mistakes + 1;
        b.(mistakes := n, sent := b.sent + [Report(b.score, b.correct, n, b.timeouts)])
      case Timeout =>
        var n := b.timeouts + 1;
        b.(timeouts := n, sent := b.sent + [Report(b.score, b.correct, b.mistakes, n)])
  }

  /** The events of a room session, handled in order. */
  function HandledAll(b: Bridge, es: seq<Event>): (r: Bridge)
    requires ValidBridge(b)
    ensures ValidBridge(r)
    decreases |es|
  {
    if es == [] then b else HandledAll(Handled(b, true, es[0]), es[1..])
  }

  /** How many events of a kind a list holds. */
  function CountOf(es: seq<Event>, k: Kind): nat
    decreases |es|
  {
    if es == [] then 0 else (if es[0].kind == k then 1 else 0) + CountOf(es[1..], k)
  }

  /**
   * From zero, the totals count the events by kind (practice and flash
   * alike), the score is ten per correct answer, and the last report
   * carries them.
   */
  lemma {:induction false} TotalsCountEvents(b: Bridge, es: seq<Event>)
    requires ValidBridge(b)
    ensures var r := HandledAll(b, es);
            && r.correct == b.correct + CountOf(es, Correct)
            && r.mistakes == b.mistakes + CountOf(es, Mistake)
            && r.timeouts == b.timeouts + CountOf(es, Timeout)
            && r.score == 10 * r.correct
            && (es != [] ==> r.sent[|r.sent| - 1] == Totals(r))
    decreases |es|
  {
    if es != [] {
      TotalsCountEvents(Handled(b, true, es[0]), es[1..]);
    }
  }

  /** The practice and the flash event of a kind change the totals the same way. */
  lemma {:induction false} GamesCountAlike(b: Bridge, inRoom: bool, k: Kind)
    requires ValidBridge(b)
    ensures Handled(b, inRoom, Event(PracticeGame, k)) == Handled(b, inRoom, Event(FlashGame, k))
  {
  }

  /** The overlay's progress bridge: its four counters and the reports sent. */
  class ProgressBridge {
    var score: nat
    var correct: nat
    var mistakes: nat
    var timeouts: nat
    /** The reports passed to `sendProgress`, oldest first. */
    var sent: seq<Report>

    function State(): Bridge
      reads this
    {
      Bridge(score, correct, mistakes, timeouts, sent)
    }

    ghost predicate Valid()
      reads this
    {
      ValidBridge(State())
    }

    constructor()
      ensures Valid()
      ensures State() == NoProgress
    {
      score, correct, mistakes, timeouts, sent := 0, 0, 0, 0, [];
    }

    /** A game event reaching the window, in a room or not. */
    method OnEvent(inRoom: bool, e: Event)
      requires Valid()
      modifies this
      ensures Valid()
      ensures State() == Handled(old(State()), inRoom, e)
    {
      if !inRoom {
        return;
      }
      match e.kind {
        case Correct =>
          var n := correct + 1;
          sent := sent + [Report(score + 10, n, mistakes, timeouts)];
          score := score + 10;
          correct := n;
        case Mistake =>
          var n := mistakes + 1;
          sent := sent + [Report(score, correct, n, timeouts)];
          mistakes := n;
        case Timeout =>
          var n := timeouts + 1;
          sent := sent + [Report(score, correct, mistakes, n)];
          timeouts := n;
      }
    }
  }

  // ---------------------------------------------------------------------------
  // Starting the local game

  /** The room's game mode. */
  datatype RoomMode = Practice | Flash

  /** What the start timer does: start a practice session of the race's length, or signal the flash game. */
  datatype StartAction = StartPractice(durationSec: int) | FlashSessionStart

  /** A scheduled start timer, with the mode and duration its callback captured. */
  datatype Plan = Plan(mode: Option<RoomMode>, durationSec: int)

  /** The guard's state: the once-flag, the pending timer, and the start actions taken. */
  datatype Starter = Starter(once: bool, pending: Option<Plan>, actions: seq<StartAction>)

  /** No timer waits once the game has started, and at most one start was taken, only after the flag was set. */
  predicate ValidStarter(s: Starter) {
    && (s.pending.Some? ==> !s.once)
    && |s.actions| <= (if s.once then 1 else 0)
  }

  const NotStarted := Starter(false, None, [])

  /**
   * The effect on a change of `started`, `startAt`, mode or duration: the
   * previous timer is cleared, and a new one is set when the room has started
   * with a start time and the game has not been started yet.
   */
  function Rescheduled(s: Starter, started: bool, startAt: Option<int>, mode: Option<RoomMode>, durationSec: int): (r: Starter)
    requires ValidStarter(s)
    ensures ValidStarter(r)
    ensures r.once == s.once && r.actions == s.actions
    ensures r.pending.Some? <==> started && !Unset(startAt) && !s.once
    ensures r.pending.Some? ==> r.pending.value == Plan(mode, durationSec)
  {
    if !started || Unset(startAt) || s.once then s.(pending := None)
    else s.(pending := Some(Plan(mode, durationSec)))
  }

  /**
   * The timer's callback: set the flag, then start practice with the
   * captured duration, signal the flash game, or (no mode) do nothing.
   */
  function TimerFired(s: Starter): (r: Starter)
    requires ValidStarter(s)
    ensures ValidStarter(r)
    ensures s.pending.None? ==> r == s
    ensures s.pending.Some? ==> r.once && r.pending.None?
    ensures s.pending.Some? && s.pending.value.mode == Some(Practice) ==> r.actions == [StartPractice(s.pending.value.durationSec)]
    ensures s.pending.Some? && s.pending.value.mode == Some(Flash) ==> r.actions == [FlashSessionStart]
    ensures s.pending.Some? && s.pending.value.mode.None? ==> r.actions == []
  {
    if s.pending.None? then s
    else
      var plan := s.pending.value;
      var act := match plan.mode
        case Some(Practice) => [StartPractice(plan.durationSec)]
        case Some(Flash) => [FlashSessionStart]
        case None => [];
      Starter(true, None, s.actions + act)
  }

  /** One thing that can happen to the guard: the effect re-runs, or the timer fires. */
  datatype StartStep = DepsChanged(started: bool, startAt: Option<int>, mode: Option<RoomMode>, durationSec: int) | Fire

  function StartSteps(s: Starter, steps: seq<StartStep>): (r: Starter)
    requires ValidStarter(s)
    ensures ValidStarter(r)
    decreases |steps|
  {
    if steps == [] then s
    else
      var next := match steps[0]
        case DepsChanged(started, startAt, mode, durationSec) => Rescheduled(s, started, startAt, mode, durationSec)
        case Fire => TimerFired(s);
      StartSteps(next, steps[1..])
  }

  /**
   * Whatever the room does, the local game is started at most once, and
   * once the flag is set no step takes another start.
   */
  lemma {:induction false} StartsAtMostOnce(s: Starter, steps: seq<StartStep>)
    requires ValidStarter(s)
    ensures |StartSteps(s, steps).actions| <= 1
    ensures s.once ==> StartSteps(s, steps).actions == s.actions
    decreases |steps|
  {
    if steps != [] {
      var next := match steps[0]
        case DepsChanged(started, startAt, mode, durationSec) => Rescheduled(s, started, startAt, mode, durationSec)
        case Fire => TimerFired(s);
      assert s.once ==> next.actions == s.actions && next.once;
      StartsAtMostOnce(next, steps[1..]);
    }
  }

  /** A started room with a start time, scheduled then fired, starts the game in its mode. */
  lemma {:induction false} StartedRoomStartsGame(startAt: int, mode: RoomMode, durationSec: int)
    requires startAt != 0
    ensures var s := TimerFired(Rescheduled(NotStarted, true, Some(startAt), Some(mode), durationSec));
            && s.once
            && s.actions == (if mode == Practice then [StartPractice(durationSec)] else [FlashSessionStart])
  {
  }

  /** The start-once guard (`startOnceRef`) with its pending timer. */
  class StartGuard {
    var once: bool
    var pending: Option<Plan>
    /** The start actions taken, oldest first. */
    var actions: seq<StartAction>

    function State(): Starter
      reads this
    {
      Starter(once, pending, actions)
    }

    ghost predicate Valid()
      reads this
    {
      ValidStarter(State())
    }

    constructor()
      ensures Valid()
      ensures State() == NotStarted
    {
      once, pending, actions := false, None, [];
    }

    /** The effect's cleanup and re-run on a change of its dependencies. */
    method DepsChanged(started: bool, startAt: Option<int>, mode: Option<RoomMode>, durationSec: int)
      requires Valid()
      modifies this`pending
      ensures Valid()
      ensures State() == Rescheduled(old(State()), started, startAt, mode, durationSec)
    {
      pending := None;
      if !started || Unset(startAt) || once {
        return;
      }
      pending := Some(Plan(mode, durationSec));
    }

    /** The start timer's callback. */
    method Fire()
      requires Valid()
      modifies this
      ensures Valid()
      ensures State() == TimerFired(old(State()))
    {
      if pending.None? {
        return;
      }
      var plan := pending.value;
      once := true;
      pending := None;
      if plan.mode == Some(Practice) {
        actions := actions + [StartPractice(plan.durationSec)];
      } else if plan.mode == Some(Flash) {
        actions := actions + [FlashSessionStart];
      }
    }
  }
}
