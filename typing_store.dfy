/**
 * The practice-round store of src/store/useTypingStore.ts. The clocks
 * (`performance.now()`, `Date.now()`), `Math.random()` and the prompt fetch
 * are parameters of the actions that read them.
 */
module TypingStore {
  import opened Wrappers
  import opened Types
  import Typing
  import Stats
  import Difficulty
  import Num

  /** How many rounds the history keeps. */
  const HistoryLimit: nat := 100
  /** The difficulty target before any round. */
  const InitialTarget: int := 300

  /** The prompts whose id is not `id` (`prompts.filter(p => p.id !== id)`). */
  function Others(prompts: seq<Prompt>, id: int): (r: seq<Prompt>)
    ensures forall p :: p in r <==> p in prompts && p.id != id
    ensures |r| <= |prompts|
    ensures (forall p :: p in prompts ==> p.id == id) ==> r == []
  {
    if |prompts| == 0 then []
    else
      var tail := Others(prompts[1..], id);
      assert forall p :: p in prompts <==> p == prompts[0] || p in prompts[1..];
      if prompts[0].id != id then [prompts[0]] + tail else tail
  }

  /** `Math.floor(rand * n)` for `rand` in [0, 1): an index into a list of `n` elements. */
  function FloorIndex(rand: real, n: nat): (i: nat)
    requires 0.0 <= rand < 1.0 && n > 0
    ensures i < n
    ensures i as real <= rand * n as real < i as real + 1.0
  {
    ScaledBelow(rand, n);
    (rand * n as real).Floor
  }

  lemma ScaledBelow(rand: real, n: nat)
    requires 0.0 <= rand < 1.0 && n > 0
    ensures 0.0 <= rand * n as real < n as real
  {
    assert (1.0 - rand) * n as real > 0.0;
  }

  /**
   * `pickRandomPrompt`: a prompt drawn at `rand` from those whose id is not
   * `currentId`, or from all prompts when no other prompt exists.
   */
  function PickRandomPrompt(prompts: seq<Prompt>, currentId: Option<int>, rand: real): (r: Option<Prompt>)
    requires 0.0 <= rand < 1.0
    ensures r.None? <==> |prompts| == 0
    ensures r.Some? ==> r.value in prompts
    ensures (r.Some? && currentId.Some? && exists p :: p in prompts && p.id != currentId.value)
            ==> r.value.id != currentId.value
  {
    if |prompts| == 0 then None
    else
      var candidates := if currentId.Some? then Others(prompts, currentId.value) else prompts;
      var pool := if |candidates| > 0 then candidates else prompts;
      Some(pool[FloorIndex(rand, |pool|)])
  }

  /** With one prompt, or only prompts sharing the current id, the draw falls back to the whole list. */
  lemma {:induction false} PickFallsBack(prompts: seq<Prompt>, currentId: int, rand: real)
    requires 0.0 <= rand < 1.0 && |prompts| > 0
    requires forall p :: p in prompts ==> p.id == currentId
    ensures PickRandomPrompt(prompts, Some(currentId), rand) == Some(prompts[FloorIndex(rand, |prompts|)])
  {
  }

  /** `xs.slice(-n)` for `n > 0`: the last `n` elements, or all of them when there are fewer. */
  function LastN<T>(xs: seq<T>, n: nat): (r: seq<T>)
    requires n > 0
    ensures |r| == Num.Min(|xs|, n)
    ensures r == xs[|xs| - |r|..]
  {
    if |xs| <= n then xs else xs[|xs| - n..]
  }

  /** Appending and keeping the last `n` keeps the new entry, last. */
  lemma {:induction false} LastNKeepsNewest<T>(xs: seq<T>, x: T, n: nat)
    requires n > 0
    ensures |LastN(xs + [x], n)| > 0 && LastN(xs + [x], n)[|LastN(xs + [x], n)| - 1] == x
    ensures |xs| < n ==> LastN(xs + [x], n) == xs + [x]
  {
  }

  /** The history entry a completed round produces. */
  function RoundEntry(prompt: Prompt, input: string, mistakes: nat, startedAt: int, finishedAt: int, timestamp: int): (e: RoundResult)
    ensures e.promptId == prompt.id && e.timestamp == timestamp
    ensures e.wpm == Stats.ComputeWpm(|input|, finishedAt - startedAt)
    ensures e.accuracy == Stats.ComputeAccuracy(|input|, mistakes)
  {
    var wpm := Stats.ComputeWpm(|input|, finishedAt - startedAt);
    var accuracy := Stats.ComputeAccuracy(|input|, mistakes);
    RoundResult(prompt.id, wpm, accuracy, timestamp)
  }

  /** The keys the practice input box tells apart. */
  datatype InputKey = EnterKey | EscapeKey | OtherKey

  /** The store's state; the actions are its methods. */
  class Store {
    var prompts: seq<Prompt>
    var current: Option<Prompt>
    var difficultyTarget: int
    var input: string
    var mistakes: nat
    var startedAt: Option<int>
    var finishedAt: Option<int>
    var history: seq<RoundResult>

    /** The history is bounded, the current prompt comes from the list, and the target is in range. */
    ghost predicate Valid()
      reads this
    {
      |history| <= HistoryLimit
      && (current.Some? ==> current.value in prompts)
      && Difficulty.MinTarget <= difficultyTarget <= Difficulty.MaxTarget
    }

    /** `initialState`. */
    constructor()
      ensures Valid()
      ensures prompts == [] && current == None && difficultyTarget == InitialTarget
      ensures input == "" && mistakes == 0 && startedAt == None && finishedAt == None && history == []
    {
      prompts := [];
      current := None;
      difficultyTarget := InitialTarget;
      input := "";
      mistakes := 0;
      startedAt := None;
      finishedAt := None;
      history := [];
    }

    /**
     * `init`: `fetched` is what the fetch produced, `None` for a failure or a
     * null list. An empty or failed fetch leaves no prompts and no current
     * prompt; otherwise one prompt is drawn at `rand`. The round is reset.
     */
    method Init(fetched: Option<seq<Prompt>>, rand: real)
      requires Valid() && 0.0 <= rand < 1.0
      modifies this
      ensures Valid()
      ensures fetched.None? || |fetched.value| == 0 ==> prompts == [] && current == None
      ensures fetched.Some? && |fetched.value| > 0 ==>
                prompts == fetched.value
                && current == Some(PickRandomPrompt(fetched.value, None, rand).GetOr(fetched.value[0]))
      ensures input == "" && mistakes == 0 && startedAt == None && finishedAt == None
      ensures difficultyTarget == old(difficultyTarget) && history == old(history)
    {
      if fetched.None? || |fetched.value| == 0 {
        prompts, current := [], None;
      } else {
        var ps := fetched.value;
        var picked := PickRandomPrompt(ps, None, rand);
        prompts, current := ps, Some(picked.GetOr(ps[0]));
      }
      input, mistakes, startedAt, finishedAt := "", 0, None, None;
    }

    /**
     * `setInput`: with a current prompt, always store the new input; count one
     * mistake when it grew and is no longer a prefix of the romaji; start the
     * clock on the first keystroke.
     */
    method SetInput(s: string, now: int)
      requires Valid()
      modifies this
      ensures Valid()
      ensures old(current).None? ==> unchanged(this)
      ensures old(current).Some? ==>
                input == s
                && startedAt == (if old(startedAt).Some? then old(startedAt) else Some(now))
                && (mistakes == old(mistakes) + 1 <==> !Typing.ValidateStrict(s, old(current).value.romaji).prefixOK && |s| > |old(input)|)
                && (mistakes == old(mistakes) || mistakes == old(mistakes) + 1)
      ensures prompts == old(prompts) && current == old(current) && difficultyTarget == old(difficultyTarget)
      ensures finishedAt == old(finishedAt) && history == old(history)
    {
      if current.None? {
        return;
      }
      var prev := input;
      var check := Typing.ValidateStrict(s, current.value.romaji);
      var newMistakes := mistakes;
      if !check.prefixOK && |s| > |prev| {
        newMistakes := newMistakes + 1;
      }
      input := s;
      mistakes := newMistakes;
      if startedAt.None? {
        startedAt := Some(now);
      }
    }

    /**
     * `submitIfComplete`: with a current prompt, a started clock (a start time of
     * 0 reads as not started) and an input equal to the romaji, record the round,
     * move the difficulty target, and go to the next prompt.
     */
    method SubmitIfComplete(now: int, timestamp: int, rand: real)
      requires Valid() && 0.0 <= rand < 1.0
      modifies this
      ensures Valid()
      ensures old(current).None? || old(startedAt).None? || old(startedAt) == Some(0)
              || !Typing.ValidateStrict(old(input), old(current).value.romaji).completed
              ==> unchanged(this)
      ensures old(current).Some? && old(startedAt).Some? && old(startedAt) != Some(0)
              && Typing.ValidateStrict(old(input), old(current).value.romaji).completed ==>
                var entry := RoundEntry(old(current).value, old(input), old(mistakes), old(startedAt).value, now, timestamp);
                history == LastN(old(history) + [entry], HistoryLimit)
                && difficultyTarget == Difficulty.UpdateDifficultyTarget(old(difficultyTarget), entry.wpm, entry.accuracy)
                && prompts == old(prompts)
                && current == PickRandomPrompt(old(prompts), Some(old(current).value.id), rand)
                && input == "" && mistakes == 0 && startedAt == None && finishedAt == None
    {
      if current.None? || startedAt.None? || startedAt == Some(0) {
        return;
      }
      var check := Typing.ValidateStrict(input, current.value.romaji);
      if !check.completed {
        return;
      }
      var entry := RoundEntry(current.value, input, mistakes, startedAt.value, now, timestamp);
      var nextTarget := Difficulty.UpdateDifficultyTarget(difficultyTarget, entry.wpm, entry.accuracy);
      history := LastN(history + [entry], HistoryLimit);
      difficultyTarget := nextTarget;
      finishedAt := Some(now);
      NextPrompt(rand);
    }

    /** `nextPrompt`: draw a prompt other than the current one (when one exists) and reset the round. */
    method NextPrompt(rand: real)
      requires Valid() && 0.0 <= rand < 1.0
      modifies this
      ensures Valid()
      ensures current == PickRandomPrompt(prompts, if old(current).Some? then Some(old(current).value.id) else None, rand)
      ensures input == "" && mistakes == 0 && startedAt == None && finishedAt == None
      ensures prompts == old(prompts) && difficultyTarget == old(difficultyTarget) && history == old(history)
    {
      var id := if current.Some? then Some(current.value.id) else None;
      current := PickRandomPrompt(prompts, id, rand);
      input, mistakes, startedAt, finishedAt := "", 0, None, None;
    }

    /** `skip`: the same as `nextPrompt`. */
    method Skip(rand: real)
      requires Valid() && 0.0 <= rand < 1.0
      modifies this
      ensures Valid()
      ensures current == PickRandomPrompt(prompts, if old(current).Some? then Some(old(current).value.id) else None, rand)
      ensures input == "" && mistakes == 0 && startedAt == None && finishedAt == None
      ensures prompts == old(prompts) && difficultyTarget == old(difficultyTarget) && history == old(history)
    {
      NextPrompt(rand);
    }

    /**
     * The input box's `onChange`: store the new input, and when it completes
     * the current prompt, submit at once (no Enter needed). A completing input
     * is a prefix, so it never counts a mistake; the round is recorded with the
     * mistakes made before it. A start time of 0 still reads as not started, so
     * such a round is stored but not submitted.
     */
    method OnChange(next: string, now: int, timestamp: int, rand: real)
      requires Valid() && 0.0 <= rand < 1.0
      modifies this
      ensures Valid()
      ensures old(current).None? ==> unchanged(this)
      ensures old(current).Some? && !Typing.ValidateStrict(next, old(current).value.romaji).completed ==>
                && input == next
                && startedAt == (if old(startedAt).Some? then old(startedAt) else Some(now))
                && (mistakes == old(mistakes) + 1 <==>
                      !Typing.ValidateStrict(next, old(current).value.romaji).prefixOK && |next| > |old(input)|)
                && (mistakes == old(mistakes) || mistakes == old(mistakes) + 1)
                && prompts == old(prompts) && current == old(current) && difficultyTarget == old(difficultyTarget)
                && finishedAt == old(finishedAt) && history == old(history)
      ensures old(current).Some? && Typing.ValidateStrict(next, old(current).value.romaji).completed ==>
                var start := if old(startedAt).Some? then old(startedAt).value else now;
                if start == 0 then
                  && input == next && startedAt == Some(0) && mistakes == old(mistakes)
                  && prompts == old(prompts) && current == old(current) && difficultyTarget == old(difficultyTarget)
                  && finishedAt == old(finishedAt) && history == old(history)
                else
                  var entry := RoundEntry(old(current).value, next, old(mistakes), start, now, timestamp);
                  && history == LastN(old(history) + [entry], HistoryLimit)
                  && difficultyTarget == Difficulty.UpdateDifficultyTarget(old(difficultyTarget), entry.wpm, entry.accuracy)
                  && prompts == old(prompts)
                  && current == PickRandomPrompt(old(prompts), Some(old(current).value.id), rand)
                  && input == "" && mistakes == 0 && startedAt == None && finishedAt == None
    {
      SetInput(next, now);
      if current.Some? && Typing.ValidateStrict(next, current.value.romaji).completed {
        SubmitIfComplete(now, timestamp, rand);
      }
    }

    /**
     * The input box's `onKeyDown`: Enter submits when the input completes the
     * prompt, Escape skips, and every other key changes nothing.
     */
    method OnKeyDown(key: InputKey, now: int, timestamp: int, rand: real)
      requires Valid() && 0.0 <= rand < 1.0
      modifies this
      ensures Valid()
      ensures key == OtherKey ==> unchanged(this)
      ensures key == EnterKey && (old(current).None? || old(startedAt).None? || old(startedAt) == Some(0)
                                 || !Typing.ValidateStrict(old(input), old(current).value.romaji).completed)
              ==> unchanged(this)
      ensures key == EnterKey && old(current).Some? && old(startedAt).Some? && old(startedAt) != Some(0)
              && Typing.ValidateStrict(old(input), old(current).value.romaji).completed ==>
                var entry := RoundEntry(old(current).value, old(input), old(mistakes), old(startedAt).value, now, timestamp);
                && history == LastN(old(history) + [entry], HistoryLimit)
                && difficultyTarget == Difficulty.UpdateDifficultyTarget(old(difficultyTarget), entry.wpm, entry.accuracy)
                && prompts == old(prompts)
                && current == PickRandomPrompt(old(prompts), Some(old(current).value.id), rand)
                && input == "" && mistakes == 0 && startedAt == None && finishedAt == None
      ensures key == EscapeKey ==>
                && current == PickRandomPrompt(prompts, if old(current).Some? then Some(old(current).value.id) else None, rand)
                && input == "" && mistakes == 0 && startedAt == None && finishedAt == None
                && prompts == old(prompts) && difficultyTarget == old(difficultyTarget) && history == old(history)
    {
      match key
      case EnterKey =>
        if current.Some? && Typing.ValidateStrict(input, current.value.romaji).completed {
          SubmitIfComplete(now, timestamp, rand);
        }
      case EscapeKey =>
        Skip(rand);
      case OtherKey =>
    }
  }
}
