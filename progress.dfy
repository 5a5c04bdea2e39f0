/**
 * The daily high-score list of src/components/Progress.tsx: stored practice
 * sessions are grouped by local calendar day, each day keeps its best
 * session, and the days are listed best first.
 *
 * The calendar day of a timestamp depends on the time zone, so it is a
 * parameter `dayOf`, giving the day as the number yyyymmdd (whose order is
 * the order of the "YYYY-MM-DD" key strings).
 */
module Progress {
  import opened Wrappers
  import opened Types

  /** The per-mode solve counts of a stored session (missing counts read as 0). */
  datatype ByMode = ByMode(easy: int, normal: int, hard: int)

  /** A stored practice session; the optional fields may be absent from older records. */
  datatype SessionRecord = SessionRecord(
    startedAt: int, endedAt: int, promptsSolved: Option<int>, totalMistakes: int,
    sessionDifficulty: Option<Mode>, byMode: Option<ByMode>, promptsTimedOut: Option<int>, points: Option<int>)

  /** One day's best session and the figures shown for it. */
  datatype DailyBest = DailyBest(
    dateKey: int, record: SessionRecord, solved: int, points: int, mistakes: int, timeouts: int, difficulty: Option<Mode>)

  /**
   * `inferDifficulty`: the mode with the most solves, ties going to normal,
   * then hard, then easy; none without per-mode counts.
   */
  function InferDifficulty(byMode: Option<ByMode>): (r: Option<Mode>)
    ensures r.None? <==> byMode.None?
    ensures r == Some(Normal) ==> byMode.value.normal >= byMode.value.hard && byMode.value.normal >= byMode.value.easy
    ensures r == Some(Hard) ==> byMode.value.hard > byMode.value.normal && byMode.value.hard >= byMode.value.easy
    ensures r == Some(Easy) ==> byMode.value.easy > byMode.value.normal && byMode.value.easy > byMode.value.hard
  {
    if byMode.None? then None
    else
      var e, n, h := byMode.value.easy, byMode.value.normal, byMode.value.hard;
      var most := if e >= n && e >= h then e else if n >= h then n else h;
      if n == most then Some(Normal)
      else if h == most then Some(Hard)
      else Some(Easy)
  }

  /** `solvedOf`: the stored solve count, or else the sum of the per-mode counts. */
  function SolvedOf(r: SessionRecord): (n: int)
    ensures r.promptsSolved.Some? ==> n == r.promptsSolved.value
    ensures r.promptsSolved.None? && r.byMode.None? ==> n == 0
    ensures r.promptsSolved.None? && r.byMode.Some? ==> n == r.byMode.value.easy + r.byMode.value.normal + r.byMode.value.hard
  {
    if r.promptsSolved.Some? then r.promptsSolved.value
    else if r.byMode.None? then 0
    else r.byMode.value.easy + r.byMode.value.normal + r.byMode.value.hard
  }

  /** The session's difficulty: the stored one, or else the inferred one. */
  function DifficultyOf(r: SessionRecord): Option<Mode> {
    if r.sessionDifficulty.Some? then r.sessionDifficulty else InferDifficulty(r.byMode)
  }

  /** Points per solve for a difficulty: 200 hard, 150 normal, 100 otherwise. */
  function PerSolve(d: Option<Mode>): (p: int)
    ensures p == 100 || p == 150 || p == 200
    ensures d == Some(Hard) <==> p == 200
    ensures d == Some(Normal) <==> p == 150
  {
    if d == Some(Hard) then 200 else if d == Some(Normal) then 150 else 100
  }

  /** `pointsOf`: the stored points, or else the solves scored at the session's difficulty. */
  function PointsOf(r: SessionRecord): (p: int)
    ensures r.points.Some? ==> p == r.points.value
    ensures r.points.None? ==> p == SolvedOf(r) * PerSolve(DifficultyOf(r))
  {
    if r.points.Some? then r.points.value else SolvedOf(r) * PerSolve(DifficultyOf(r))
  }

  /**
   * `better(a, b)`: positive when `a` is the better session — more points,
   * then fewer mistakes, then an earlier end.
   */
  function Compare(a: SessionRecord, b: SessionRecord): (d: int)
    ensures d > 0 <==> || PointsOf(a) > PointsOf(b)
                       || (PointsOf(a) == PointsOf(b) && a.totalMistakes < b.totalMistakes)
                       || (PointsOf(a) == PointsOf(b) && a.totalMistakes == b.totalMistakes && a.endedAt < b.endedAt)
  {
    var pa, pb := PointsOf(a), PointsOf(b);
    if pa != pb then pa - pb
    else if a.totalMistakes != b.totalMistakes then b.totalMistakes - a.totalMistakes
    else b.endedAt - a.endedAt
  }

  predicate Better(a: SessionRecord, b: SessionRecord) {
    Compare(a, b) > 0
  }

  /**
   * "Better" is a strict weak order: never reflexive, never both ways,
   * transitive, and if `a` beats `c` then it beats `b` or `b` beats `c`.
   */
  lemma {:induction false} BetterIsStrictWeakOrder(a: SessionRecord, b: SessionRecord, c: SessionRecord)
    ensures !Better(a, a)
    ensures Better(a, b) ==> !Better(b, a)
    ensures Better(a, b) && Better(b, c) ==> Better(a, c)
    ensures Better(a, c) ==> Better(a, b) || Better(b, c)
  {
  }

  /** The entry the loop stores for a day's session. */
  function Entry(key: int, r: SessionRecord): (e: DailyBest)
    ensures e.dateKey == key && e.record == r
  {
    DailyBest(key, r, SolvedOf(r), PointsOf(r), r.totalMistakes, r.promptsTimedOut.GetOr(0), DifficultyOf(r))
  }

  /** The map under construction, with its keys in insertion order (the order a JavaScript `Map` iterates in). */
  datatype Bests = Bests(best: map<int, DailyBest>, keys: seq<int>)

  /**
   * One turn of the loop: a new day stores the session; on a known day a
   * strictly better session replaces the kept one (keeping its place).
   */
  function Step(b: Bests, r: SessionRecord, dayOf: int -> int): Bests {
    var key := dayOf(r.startedAt);
    if key !in b.best then Bests(b.best[key := Entry(key, r)], b.keys + [key])
    else if Better(r, b.best[key].record) then Bests(b.best[key := Entry(key, r)], b.keys)
    else b
  }

  /** The loop over a list of sessions, as a left fold. */
  function Fold(rs: seq<SessionRecord>, dayOf: int -> int): Bests
    decreases |rs|
  {
    if |rs| == 0 then Bests(map[], [])
    else Step(Fold(rs[..|rs| - 1], dayOf), rs[|rs| - 1], dayOf)
  }

  /** The days of a list of sessions. */
  ghost function Days(rs: seq<SessionRecord>, dayOf: int -> int): set<int> {
    set r | r in rs :: dayOf(r.startedAt)
  }

  /** The map is well formed: its keys are listed once each, and each entry describes its day's session. */
  ghost predicate WellFormed(b: Bests) {
    && (forall i, j :: 0 <= i < j < |b.keys| ==> b.keys[i] != b.keys[j])
    && (forall i :: 0 <= i < |b.keys| ==> b.keys[i] in b.best)
    && (forall k :: k in b.best ==> k in b.keys)
    && (forall k :: k in b.best ==> b.best[k] == Entry(k, b.best[k].record))
  }

  /** Appending a session adds its day to the days of a list. */
  lemma {:induction false} DaysAppend(init: seq<SessionRecord>, r: SessionRecord, dayOf: int -> int)
    ensures Days(init + [r], dayOf) == Days(init, dayOf) + {dayOf(r.startedAt)}
  {
    var rs := init + [r];
    forall d | d in Days(rs, dayOf)
      ensures d in Days(init, dayOf) + {dayOf(r.startedAt)}
    {
      var x :| x in rs && dayOf(x.startedAt) == d;
      if x != r {
        assert x in init;
      }
    }
    assert r in rs;
  }

  /**
   * One turn keeps the map well formed, adds the session's day to its keys,
   * and leaves every entry either as it was or holding this session on its day.
   */
  lemma {:induction false} StepShape(b: Bests, r: SessionRecord, dayOf: int -> int)
    requires WellFormed(b)
    ensures var b' := Step(b, r, dayOf);
            && WellFormed(b')
            && b'.best.Keys == b.best.Keys + {dayOf(r.startedAt)}
            && (forall k :: k in b'.best ==> (k in b.best && b'.best[k] == b.best[k]) || (k == dayOf(r.startedAt) && b'.best[k].record == r))
  {
    var key := dayOf(r.startedAt);
    if key !in b.best {
      var keys := b.keys + [key];
      forall i, j | 0 <= i < j < |keys|
        ensures keys[i] != keys[j]
      {
        if j == |keys| - 1 {
          assert keys[i] == b.keys[i];
        }
      }
    }
  }

  /**
   * The daily-best map has one entry per day on which some session started,
   * its keys listed once each, and each day's entry describes one of that
   * day's sessions.
   */
  lemma {:induction false} FoldShape(rs: seq<SessionRecord>, dayOf: int -> int)
    ensures var b := Fold(rs, dayOf);
            && WellFormed(b)
            && b.best.Keys == Days(rs, dayOf)
            && (forall k :: k in b.best ==> b.best[k].record in rs && dayOf(b.best[k].record.startedAt) == k)
    decreases |rs|
  {
    if |rs| > 0 {
      var init, r := rs[..|rs| - 1], rs[|rs| - 1];
      FoldShape(init, dayOf);
      assert rs == init + [r];
      DaysAppend(init, r, dayOf);
      StepShape(Fold(init, dayOf), r, dayOf);
    }
  }

  /** No session of a day beats the session kept for that day. */
  lemma {:induction false} FoldKeepsBest(rs: seq<SessionRecord>, dayOf: int -> int)
    ensures var b := Fold(rs, dayOf);
            forall k, i :: k in b.best && 0 <= i < |rs| && dayOf(rs[i].startedAt) == k ==> !Better(rs[i], b.best[k].record)
    decreases |rs|
  {
    if |rs| > 0 {
      var init, r := rs[..|rs| - 1], rs[|rs| - 1];
      var b0 := Fold(init, dayOf);
      FoldKeepsBest(init, dayOf);
      FoldShape(init, dayOf);
      StepKeepsBest(b0, r, dayOf, r);
      forall k, i | k in Fold(rs, dayOf).best && 0 <= i < |rs| - 1 && dayOf(rs[i].startedAt) == k
        ensures !Better(rs[i], Fold(rs, dayOf).best[k].record)
      {
        assert rs[i] == init[i];
        assert init[i] in init;
        StepKeepsBest(b0, r, dayOf, rs[i]);
      }
    }
  }

  /**
   * After a turn, the day's kept session is beaten neither by this turn's
   * session nor by any session that did not beat the one kept before.
   */
  lemma {:induction false} StepKeepsBest(b: Bests, r: SessionRecord, dayOf: int -> int, x: SessionRecord)
    requires x == r || (dayOf(x.startedAt) in b.best && !Better(x, b.best[dayOf(x.startedAt)].record))
    ensures dayOf(x.startedAt) in Step(b, r, dayOf).best
    ensures !Better(x, Step(b, r, dayOf).best[dayOf(x.startedAt)].record)
  {
    var key := dayOf(r.startedAt);
    BetterIsStrictWeakOrder(x, x, x);
    if x != r && key == dayOf(x.startedAt) && Better(r, b.best[key].record) {
      BetterIsStrictWeakOrder(x, r, b.best[key].record);
    }
  }

  /**
   * Ties keep the first seen: the kept session comes no later in the list
   * than any session of its day that it does not beat.
   */
  lemma {:induction false} FoldTiesKeepFirst(rs: seq<SessionRecord>, dayOf: int -> int)
    ensures var b := Fold(rs, dayOf);
            forall k, i :: k in b.best && 0 <= i < |rs| && dayOf(rs[i].startedAt) == k && !Better(b.best[k].record, rs[i]) ==>
              exists j :: 0 <= j <= i && rs[j] == b.best[k].record
  {
    var b := Fold(rs, dayOf);
    forall k, i | k in b.best && 0 <= i < |rs| && dayOf(rs[i].startedAt) == k && !Better(b.best[k].record, rs[i])
      ensures exists j :: 0 <= j <= i && rs[j] == b.best[k].record
    {
      var j := KeptNoLater(rs, dayOf, k, i);
    }
  }

  /** Where the kept session of day `k` sits in the list: no later than the tied session `rs[i]`. */
  lemma {:induction false} KeptNoLater(rs: seq<SessionRecord>, dayOf: int -> int, k: int, i: nat) returns (j: nat)
    requires k in Fold(rs, dayOf).best && i < |rs| && dayOf(rs[i].startedAt) == k
    requires !Better(Fold(rs, dayOf).best[k].record, rs[i])
    ensures j <= i && rs[j] == Fold(rs, dayOf).best[k].record
    decreases |rs|
  {
    var init, r := rs[..|rs| - 1], rs[|rs| - 1];
    var b0 := Fold(init, dayOf);
    FoldShape(init, dayOf);
    StepShape(b0, r, dayOf);
    if i == |rs| - 1 {
      if k in b0.best && Fold(rs, dayOf).best[k] == b0.best[k] {
        assert b0.best[k].record in init;
        j :| 0 <= j < |init| && init[j] == b0.best[k].record;
        assert rs[j] == init[j];
      } else {
        j := i;
      }
    } else {
      assert rs[i] == init[i];
      assert init[i] in init;
      FoldKeepsBest(init, dayOf);
      StepKeepsTie(b0, r, dayOf, rs[i]);
      j := KeptNoLater(init, dayOf, k, i);
      assert rs[j] == init[j];
    }
  }

  /**
   * A turn does not replace a day's kept session by one that the earlier
   * session `x` of that day, not beaten by the kept one, is tied with.
   */
  lemma {:induction false} StepKeepsTie(b: Bests, r: SessionRecord, dayOf: int -> int, x: SessionRecord)
    requires dayOf(x.startedAt) in b.best && !Better(x, b.best[dayOf(x.startedAt)].record)
    requires !Better(Step(b, r, dayOf).best[dayOf(x.startedAt)].record, x)
    ensures Step(b, r, dayOf).best[dayOf(x.startedAt)] == b.best[dayOf(x.startedAt)]
  {
    var key := dayOf(r.startedAt);
    if key == dayOf(x.startedAt) && Better(r, b.best[key].record) {
      BetterIsStrictWeakOrder(r, x, b.best[key].record);
    }
  }

  /** Place a session in front of the first one that started no later than it. */
  function InsertByStart(x: SessionRecord, s: seq<SessionRecord>): (r: seq<SessionRecord>)
    ensures multiset(r) == multiset(s) + multiset{x}
  {
    if s == [] || s[0].startedAt <= x.startedAt then [x] + s
    else
      assert s == [s[0]] + s[1..];
      [s[0]] + InsertByStart(x, s[1..])
  }

  /**
   * The load's sort of the stored sessions (`[...arr].sort(...)` on
   * `startedAt`, descending), as an insertion sort that keeps an earlier
   * session ahead of a later one with the same start.
   */
  function LoadSorted(arr: seq<SessionRecord>): (r: seq<SessionRecord>)
    ensures multiset(r) == multiset(arr)
  {
    if arr == [] then []
    else
      assert arr == [arr[0]] + arr[1..];
      InsertByStart(arr[0], LoadSorted(arr[1..]))
  }

  predicate NewestFirst(s: seq<SessionRecord>) {
    forall i, j :: 0 <= i < j < |s| ==> s[i].startedAt >= s[j].startedAt
  }

  lemma {:induction false} InsertByStartSorted(x: SessionRecord, s: seq<SessionRecord>)
    requires NewestFirst(s)
    ensures NewestFirst(InsertByStart(x, s))
  {
    if s != [] && s[0].startedAt > x.startedAt {
      InsertByStartSorted(x, s[1..]);
      var t := InsertByStart(x, s[1..]);
      forall e | e in t
        ensures s[0].startedAt >= e.startedAt
      {
        assert e in multiset(t);
        assert e == x || e in multiset(s[1..]);
      }
    }
  }

  /** The loaded list is newest start first and holds the stored sessions, each as often as stored. */
  lemma {:induction false} LoadSortedSorts(arr: seq<SessionRecord>)
    ensures NewestFirst(LoadSorted(arr)) && multiset(LoadSorted(arr)) == multiset(arr)
  {
    if arr != [] {
      LoadSortedSorts(arr[1..]);
      InsertByStartSorted(arr[0], LoadSorted(arr[1..]));
    }
  }

  /**
   * On the loaded list a tie goes to the session that started last: a day's
   * kept session started no earlier than any session of that day it does not
   * beat.
   */
  lemma {:induction false} LoadedTiesKeepLatest(arr: seq<SessionRecord>, dayOf: int -> int)
    ensures var b := Fold(LoadSorted(arr), dayOf);
            forall k, x :: k in b.best && x in arr && dayOf(x.startedAt) == k && !Better(b.best[k].record, x) ==>
              b.best[k].record.startedAt >= x.startedAt
  {
    var rs := LoadSorted(arr);
    LoadSortedSorts(arr);
    var b := Fold(rs, dayOf);
    forall k, x | k in b.best && x in arr && dayOf(x.startedAt) == k && !Better(b.best[k].record, x)
      ensures b.best[k].record.startedAt >= x.startedAt
    {
      assert x in multiset(arr);
      KeptStartedNoEarlier(rs, dayOf, k, x);
    }
  }

  /** On a newest-first list, a day's kept session started no earlier than a session of that day it does not beat. */
  lemma {:induction false} KeptStartedNoEarlier(rs: seq<SessionRecord>, dayOf: int -> int, k: int, x: SessionRecord)
    requires NewestFirst(rs) && x in rs && dayOf(x.startedAt) == k
    requires k in Fold(rs, dayOf).best && !Better(Fold(rs, dayOf).best[k].record, x)
    ensures Fold(rs, dayOf).best[k].record.startedAt >= x.startedAt
  {
    var i :| 0 <= i < |rs| && rs[i] == x;
    var j := KeptNoLater(rs, dayOf, k, i);
    assert j == i || rs[j].startedAt >= rs[i].startedAt;
  }

  /**
   * The loop of the list's memo, over the component's `records`: the stored
   * sessions as the load left them, newest start first (`LoadSorted`).
   */
  method DailyBests(records: seq<SessionRecord>, dayOf: int -> int) returns (best: map<int, DailyBest>, keys: seq<int>)
    ensures Bests(best, keys) == Fold(records, dayOf)
  {
    best, keys := map[], [];
    for i := 0 to |records|
      invariant Bests(best, keys) == Fold(records[..i], dayOf)
    {
      var r := records[i];
      assert records[..i + 1][..i] == records[..i];
      var key := dayOf(r.startedAt);
      if key !in best {
        best := best[key := Entry(key, r)];
        keys := keys + [key];
      } else {
        var current := best[key].record;
        if Compare(r, current) > 0 {
          best := best[key := Entry(key, r)];
        }
      }
    }
    assert records[..|records|] == records;
  }

  /**
   * The display order: more points first, then fewer mistakes, then an
   * earlier end, then the later day. (The days are first sorted newest
   * first and the point order is a stable sort of that list; the two sorts
   * together give this one order.)
   */
  predicate ShownBefore(a: DailyBest, b: DailyBest) {
    || a.points > b.points
    || (a.points == b.points && a.mistakes < b.mistakes)
    || (a.points == b.points && a.mistakes == b.mistakes && a.record.endedAt < b.record.endedAt)
    || (a.points == b.points && a.mistakes == b.mistakes && a.record.endedAt == b.record.endedAt && a.dateKey > b.dateKey)
  }

  /** The display order is a strict order, total on entries of different days. */
  lemma {:induction false} ShownBeforeIsStrictTotal(a: DailyBest, b: DailyBest, c: DailyBest)
    ensures !ShownBefore(a, a)
    ensures ShownBefore(a, b) ==> !ShownBefore(b, a)
    ensures ShownBefore(a, b) && ShownBefore(b, c) ==> ShownBefore(a, c)
    ensures a.dateKey != b.dateKey ==> ShownBefore(a, b) || ShownBefore(b, a)
  {
  }

  predicate SortedShown(s: seq<DailyBest>) {
    forall i, j :: 0 <= i < j < |s| ==> ShownBefore(s[i], s[j])
  }

  predicate DistinctDays(s: seq<DailyBest>) {
    forall i, j :: 0 <= i < j < |s| ==> s[i].dateKey != s[j].dateKey
  }

  /** Insert one entry in front of the first entry it is shown before. */
  function Insert(x: DailyBest, s: seq<DailyBest>): (r: seq<DailyBest>)
    ensures multiset(r) == multiset(s) + multiset{x} && |r| == |s| + 1
    decreases |s|
  {
    if s == [] then [x]
    else if ShownBefore(s[0], x) then
      assert s == [s[0]] + s[1..];
      [s[0]] + Insert(x, s[1..])
    else [x] + s
  }

  /** The displayed list: the days' entries sorted into display order. */
  function SortShown(s: seq<DailyBest>): (r: seq<DailyBest>)
    ensures multiset(r) == multiset(s) && |r| == |s|
    decreases |s|
  {
    if s == [] then []
    else
      assert s == [s[0]] + s[1..];
      Insert(s[0], SortShown(s[1..]))
  }

  lemma {:induction false} InsertSorted(x: DailyBest, s: seq<DailyBest>)
    requires SortedShown(s) && forall y :: y in s ==> y.dateKey != x.dateKey
    ensures SortedShown(Insert(x, s))
    decreases |s|
  {
    if s != [] {
      if ShownBefore(s[0], x) {
        assert s == [s[0]] + s[1..];
        InsertSorted(x, s[1..]);
        var tail := Insert(x, s[1..]);
        forall y | y in tail
          ensures ShownBefore(s[0], y)
        {
          assert y in multiset(tail);
          if y != x {
            assert y in s[1..];
          }
        }
        assert Insert(x, s) == [s[0]] + tail;
      } else {
        ShownBeforeIsStrictTotal(x, s[0], s[0]);
        forall j | 0 < j < |s|
          ensures ShownBefore(x, s[j])
        {
          ShownBeforeIsStrictTotal(x, s[0], s[j]);
        }
      }
    }
  }

  /** Entries of distinct days come out in display order, each exactly once. */
  lemma {:induction false} SortShownSorts(s: seq<DailyBest>)
    requires DistinctDays(s)
    ensures SortedShown(SortShown(s)) && multiset(SortShown(s)) == multiset(s)
    decreases |s|
  {
    if s != [] {
      assert DistinctDays(s[1..]);
      SortShownSorts(s[1..]);
      forall y | y in SortShown(s[1..])
        ensures y.dateKey != s[0].dateKey
      {
        assert y in multiset(SortShown(s[1..]));
        var j :| 0 <= j < |s[1..]| && s[1..][j] == y;
        assert s[j + 1] == y;
      }
      InsertSorted(s[0], SortShown(s[1..]));
    }
  }

  /** The map's entries in its key order (`Array.from(bestMap.values())`). */
  function Values(b: Bests): (vs: seq<DailyBest>)
    requires forall i :: 0 <= i < |b.keys| ==> b.keys[i] in b.best
    ensures |vs| == |b.keys|
    ensures forall i :: 0 <= i < |vs| ==> vs[i] == b.best[b.keys[i]]
  {
    seq(|b.keys|, i requires 0 <= i < |b.keys| => b.best[b.keys[i]])
  }

  /**
   * The list shown: the map's entries (`daily`) sorted into display order
   * (`ordered`).
   */
  function Shown(records: seq<SessionRecord>, dayOf: int -> int): (s: seq<DailyBest>)
    ensures |s| == |Fold(records, dayOf).keys|
  {
    FoldShape(records, dayOf);
    SortShown(Values(Fold(records, dayOf)))
  }

  /** The entries of a well-formed map, in key order, are of distinct days and are all its entries. */
  lemma {:induction false} ValuesOfDays(b: Bests)
    requires WellFormed(b)
    ensures DistinctDays(Values(b))
    ensures forall e :: e in Values(b) <==> e.dateKey in b.best && e == b.best[e.dateKey]
  {
    var vs := Values(b);
    forall i, j | 0 <= i < j < |vs|
      ensures vs[i].dateKey != vs[j].dateKey
    {
      assert vs[i].dateKey == b.keys[i] && vs[j].dateKey == b.keys[j];
    }
    forall e: DailyBest | e.dateKey in b.best && e == b.best[e.dateKey]
      ensures e in vs
    {
      var i :| 0 <= i < |b.keys| && b.keys[i] == e.dateKey;
      assert vs[i] == e;
    }
    forall e | e in vs
      ensures e.dateKey in b.best && e == b.best[e.dateKey]
    {
      var i :| 0 <= i < |vs| && vs[i] == e;
      assert b.best[b.keys[i]].dateKey == b.keys[i];
    }
  }

  /** The list is in display order and shows each entry of the map once. */
  lemma {:induction false} ShownSorted(records: seq<SessionRecord>, dayOf: int -> int)
    ensures var b := Fold(records, dayOf);
            && SortedShown(Shown(records, dayOf))
            && (forall e :: e in Shown(records, dayOf) <==> e.dateKey in b.best && e == b.best[e.dateKey])
  {
    FoldShape(records, dayOf);
    var b := Fold(records, dayOf);
    var daily := Values(b);
    ValuesOfDays(b);
    SortShownSorts(daily);
    var s := SortShown(daily);
    assert s == Shown(records, dayOf);
    forall e: DailyBest
      ensures e in s <==> e in daily
    {
      assert e in s <==> e in multiset(s);
    }
  }

  /**
   * The list shown has one entry per day on which a session started: that
   * day's best session, not beaten by any other session of the day.
   */
  lemma {:induction false} ShownIsDailyBest(records: seq<SessionRecord>, dayOf: int -> int)
    ensures forall k :: k in Days(records, dayOf) <==> exists e :: e in Shown(records, dayOf) && e.dateKey == k
    ensures forall e, i :: e in Shown(records, dayOf) && 0 <= i < |records| && dayOf(records[i].startedAt) == e.dateKey ==>
              e.record in records && e == Entry(e.dateKey, e.record) && !Better(records[i], e.record)
  {
    FoldShape(records, dayOf);
    FoldKeepsBest(records, dayOf);
    ShownSorted(records, dayOf);
    var b := Fold(records, dayOf);
    forall k | k in Days(records, dayOf)
      ensures exists e :: e in Shown(records, dayOf) && e.dateKey == k
    {
      assert b.best[k].dateKey == k;
    }
  }

  /** The list of days the component renders, in display order. */
  method Ordered(records: seq<SessionRecord>, dayOf: int -> int) returns (ordered: seq<DailyBest>)
    ensures ordered == Shown(records, dayOf)
  {
    var best, keys := DailyBests(records, dayOf);
    FoldShape(records, dayOf);
    ordered := SortShown(Values(Bests(best, keys)));
  }

  /** `labelOf`: the mode's name in capitals, "-" without one. */
  function LabelOf(mode: Option<Mode>): (s: string)
    ensures s == "-" <==> mode.None?
    ensures mode == Some(Easy) <==> s == "EASY"
    ensures mode == Some(Normal) <==> s == "NORMAL"
    ensures mode == Some(Hard) <==> s == "HARD"
  {
    match mode
    case Some(Easy) => "EASY"
    case Some(Normal) => "NORMAL"
    case Some(Hard) => "HARD"
    case None => "-"
  }
}
