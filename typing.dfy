/**
 * The romaji matcher of src/lib/typing.ts: strict validation, the fixed
 * variant-rewriting table, variant acceptance and prefix acceptance, and the
 * highlight split shown under the prompt.
 */
module Typing {
  import opened Wrappers
  import opened Text
  import Num

  // ---------------------------------------------------------------------------
  // Strict validation
  // ---------------------------------------------------------------------------

  datatype StrictCheck = StrictCheck(prefixOK: bool, completed: bool)

  /** `validateStrict`: is the input a prefix of the target, and is it the whole (non-empty) target. */
  function ValidateStrict(input: string, target: string): (r: StrictCheck)
    ensures r.prefixOK <==> |input| <= |target| && forall i :: 0 <= i < |input| ==> input[i] == target[i]
    ensures r.completed <==> r.prefixOK && |input| == |target| && |target| > 0
  {
    StrictCheck(input <= target, |input| > 0 && input == target)
  }

  /** The empty input is never complete, even against the empty target. */
  lemma {:induction false} EmptyNeverCompleted(target: string)
    ensures ValidateStrict("", target).prefixOK
    ensures !ValidateStrict("", target).completed
  {
  }

  // ---------------------------------------------------------------------------
  // The rewriting table and the per-suffix expansion
  // ---------------------------------------------------------------------------

  /** A rewriting rule: at a position where `pat` starts, each of `alts` may be typed instead. */
  datatype Rule = Rule(pat: string, alts: seq<string>)

  /** The twelve rules, in the order they are tried. */
  const Rules: seq<Rule> := [
    Rule("sha", ["sha", "sya", "shya"]),
    Rule("shu", ["shu", "syu", "shyu"]),
    Rule("sho", ["sho", "syo", "shyo"]),
    Rule("ja", ["ja", "jya", "zya"]),
    Rule("ju", ["ju", "jyu", "zyu"]),
    Rule("jo", ["jo", "jyo", "zyo"]),
    Rule("shi", ["shi", "si"]),
    Rule("chi", ["chi", "ti", "ci"]),
    Rule("tsu", ["tsu", "tu"]),
    Rule("ji", ["ji", "zi"]),
    Rule("fu", ["fu", "hu"]),
    Rule("zzi", ["jji"])
  ]

  /** The index of the `zzi` rule, the only one whose alternatives leave out its own pattern. */
  const ZziRule: nat := 11

  lemma RulesShape()
    ensures |Rules| == 12
    ensures forall k :: 0 <= k < |Rules| ==> |Rules[k].pat| >= 2 && |Rules[k].alts| >= 1
    ensures forall k :: 0 <= k < |Rules| && k != ZziRule ==> Rules[k].alts[0] == Rules[k].pat
    ensures Rules[ZziRule] == Rule("zzi", ["jji"])
  {
  }

  /** The first rule, from index `from` on, whose pattern starts `rest`. */
  function FirstRule(rest: string, from: nat): (r: Option<nat>)
    requires from <= |Rules|
    ensures r.Some? ==> from <= r.value < |Rules| && Rules[r.value].pat <= rest
    ensures r.Some? ==> forall j :: from <= j < r.value ==> !(Rules[j].pat <= rest)
    ensures r.None? ==> forall j :: from <= j < |Rules| ==> !(Rules[j].pat <= rest)
    decreases |Rules| - from
  {
    if from == |Rules| then None
    else if Rules[from].pat <= rest then Some(from)
    else FirstRule(rest, from + 1)
  }

  /** `alt + t` for every tail `t`, in order. */
  function Row(alt: string, tails: seq<string>): (r: seq<string>)
    ensures |r| == |tails|
    ensures forall j :: 0 <= j < |tails| ==> r[j] == alt + tails[j]
  {
    seq(|tails|, j requires 0 <= j < |tails| => alt + tails[j])
  }

  /** Every alternative followed by every tail, alternative-major: the nested loops' full output. */
  function Cross(alts: seq<string>, tails: seq<string>): (r: seq<string>)
    ensures |alts| > 0 ==> |r| >= |tails|
  {
    if alts == [] then [] else Cross(alts[..|alts| - 1], tails) + Row(alts[|alts| - 1], tails)
  }

  /** The first `n` elements, or all of them when there are fewer. */
  function Take<T>(xs: seq<T>, n: nat): (r: seq<T>)
    ensures |r| <= n && r <= xs
    ensures |r| == if |xs| <= n then |xs| else n
  {
    if |xs| <= n then xs else xs[..n]
  }

  /**
   * The expansions of a suffix `rest` of the canonical string (the `helper` closure).
   * At each position the first rule in table order whose pattern matches is applied,
   * and its list is cut after `cap + 1` entries; a position no rule matches is copied.
   * The closure's memo and its `out.length > cap` guard do not change the result:
   * `out` is never written, so the guard never holds for a non-negative cap.
   */
  function Expand(rest: string, cap: nat): (r: seq<string>)
    ensures 1 <= |r| <= cap + 1
    decreases |rest|
  {
    if |rest| == 0 then [""]
    else
      match FirstRule(rest, 0)
      case Some(k) =>
        RulesShape();
        Take(Cross(Rules[k].alts, Expand(rest[|Rules[k].pat|..], cap)), cap + 1)
      case None =>
        Row([rest[0]], Expand(rest[1..], cap))
  }

  predicate NoDuplicates(xs: seq<string>) {
    forall i, j :: 0 <= i < j < |xs| ==> xs[i] != xs[j]
  }

  /**
   * The de-duplicating loop: `uniq` is what it has kept so far. A string not yet
   * kept is appended, and the loop stops as soon as `cap` strings are kept (checked
   * only after an append, so a cap of 0 still keeps one string).
   */
  function DedupeFrom(xs: seq<string>, uniq: seq<string>, cap: nat): (r: seq<string>)
    requires NoDuplicates(uniq) && |uniq| < Num.Max(cap, 1)
    ensures NoDuplicates(r) && uniq <= r
    ensures |r| <= Num.Max(cap, 1)
    ensures forall x :: x in r ==> x in uniq || x in xs
    ensures |r| < cap ==> forall x :: x in xs ==> x in r
    ensures |xs| > 0 || |uniq| > 0 ==> |r| > 0
    decreases |xs|
  {
    if |xs| == 0 then uniq
    else if xs[0] in uniq then DedupeFrom(xs[1..], uniq, cap)
    else
      var kept := uniq + [xs[0]];
      AppendFresh(uniq, xs[0]);
      if |uniq| + 1 >= cap then kept
      else
        var r := DedupeFrom(xs[1..], kept, cap);
        assert r[|uniq|] == kept[|uniq|] == xs[0];
        assert forall x :: x in xs ==> x == xs[0] || x in xs[1..];
        r
  }

  lemma AppendFresh(uniq: seq<string>, x: string)
    requires NoDuplicates(uniq) && x !in uniq
    ensures NoDuplicates(uniq + [x]) && uniq <= uniq + [x]
  {
    var kept := uniq + [x];
    forall i, j | 0 <= i < j < |kept| ensures kept[i] != kept[j] {
      if j == |uniq| {
        assert kept[i] == uniq[i];
      }
    }
  }

  /** `generateRomajiVariants(s, cap)`: the expansions of `s`, without duplicates, at most `cap` of them. */
  function Variants(s: string, cap: nat): (r: seq<string>)
    ensures NoDuplicates(r)
    ensures 1 <= |r| <= Num.Max(cap, 1)
    ensures forall x :: x in r ==> x in Expand(s, cap)
    ensures |r| < cap ==> forall x :: x in Expand(s, cap) ==> x in r
  {
    DedupeFrom(Expand(s, cap), [], cap)
  }

  /** The callers' cap. */
  const VariantCap: nat := 256

  // ----- properties of the expansion -----

  /** The empty canonical string has exactly one variant, itself. */
  lemma {:induction false} VariantsOfEmpty(cap: nat)
    ensures Variants("", cap) == [""]
  {
    assert Expand("", cap) == [""];
    assert [""][1..] == [];
    if 1 < cap {
      assert DedupeFrom([], [""], cap) == [""];
    }
  }

  /**
   * Rules are tried in table order: when rule `k` is the first whose pattern
   * starts `rest`, the expansion is rule `k`'s alternatives before the
   * expansions of what follows the pattern, cut after `cap + 1` entries; when
   * none matches, the first character is copied in front of every expansion of
   * the remainder.
   */
  lemma {:induction false} ExpandFirstMatchWins(rest: string, cap: nat, k: nat)
    requires k < |Rules| && Rules[k].pat <= rest
    requires forall j :: 0 <= j < k ==> !(Rules[j].pat <= rest)
    ensures |Rules[k].pat| <= |rest|
    ensures Expand(rest, cap) == Take(Cross(Rules[k].alts, Expand(rest[|Rules[k].pat|..], cap)), cap + 1)
  {
    RulesShape();
    assert FirstRule(rest, 0) == Some(k);
  }

  lemma {:induction false} ExpandCopiesUnmatched(rest: string, cap: nat)
    requires |rest| > 0
    requires forall j :: 0 <= j < |Rules| ==> !(Rules[j].pat <= rest)
    ensures Expand(rest, cap) == Row([rest[0]], Expand(rest[1..], cap))
  {
    assert FirstRule(rest, 0).None?;
  }

  /** A pattern that differs from `s` at some position does not start `s`. */
  lemma PatternDiffersAt(j: nat, s: string, i: nat)
    requires j < |Rules| && i < |Rules[j].pat| && i < |s| && Rules[j].pat[i] != s[i]
    ensures !(Rules[j].pat <= s)
  {
  }

  /** No rule's pattern starts a string whose first character begins no pattern. */
  lemma NoRuleAt(rest: string)
    requires |rest| > 0 && rest[0] !in {'s', 'j', 'c', 't', 'f', 'z'}
    ensures forall j :: 0 <= j < |Rules| ==> !(Rules[j].pat <= rest)
  {
    RulesShape();
    forall j | 0 <= j < |Rules| ensures !(Rules[j].pat <= rest) {
      PatternDiffersAt(j, rest, 0);
    }
  }

  lemma RowSingle(alt: string, t: string)
    ensures Row(alt, [t]) == [alt + t]
  {
  }

  /** Crossing with a single tail appends that tail to every alternative. */
  lemma {:induction false} CrossOneTail(alts: seq<string>, t: string)
    ensures |Cross(alts, [t])| == |alts|
    ensures forall i :: 0 <= i < |alts| ==> Cross(alts, [t])[i] == alts[i] + t
    decreases |alts|
  {
    if alts != [] {
      CrossOneTail(alts[..|alts| - 1], t);
    }
  }

  /** A per-suffix list can hold `cap + 1` entries: "sha" with cap 1 keeps two spellings. */
  lemma ExpandCanExceedCap()
    ensures Expand("sha", 1) == ["sha", "sya"]
    ensures |Variants("sha", 1)| == 1
  {
    assert Expand("", 1) == [""];
    ExpandFirstMatchWins("sha", 1, 0);
    assert "sha"[3..] == "";
    CrossOneTail(["sha", "sya", "shya"], "");
    var c := Cross(["sha", "sya", "shya"], [""]);
    assert c[0] == "sha" && c[1] == "sya";
    assert c[..2] == ["sha", "sya"];
  }

  lemma {:induction false} CrossHead(alts: seq<string>, tails: seq<string>)
    requires |alts| > 0 && |tails| > 0
    ensures |Cross(alts, tails)| > 0 && Cross(alts, tails)[0] == alts[0] + tails[0]
    decreases |alts|
  {
    if |alts| > 1 {
      CrossHead(alts[..|alts| - 1], tails);
    }
  }

  /** `s` has a "zzi" starting at position `i`. */
  predicate ZziAt(s: string, i: nat) {
    i + 3 <= |s| && s[i] == 'z' && s[i + 1] == 'z' && s[i + 2] == 'i'
  }

  ghost predicate HasZzi(s: string) {
    exists i: nat :: ZziAt(s, i)
  }

  /** A string without "zzi" has none in any of its suffixes. */
  lemma NoZziInSuffix(s: string, n: nat)
    requires !HasZzi(s) && n <= |s|
    ensures !HasZzi(s[n..])
  {
    forall i: nat | ZziAt(s[n..], i) ensures ZziAt(s, i + n) { }
  }

  /** Without "zzi" the `zzi` rule never matches. */
  lemma RuleIsNotZzi(rest: string, k: nat)
    requires !HasZzi(rest) && FirstRule(rest, 0) == Some(k)
    ensures k != ZziRule
  {
    RulesShape();
    assert !ZziAt(rest, 0);
    assert !("zzi" <= rest);
  }

  /** A matched rule that lists its pattern first puts the pattern before the suffix's first expansion. */
  lemma ExpandHeadByRule(rest: string, cap: nat, k: nat)
    requires FirstRule(rest, 0) == Some(k) && k != ZziRule
    requires Expand(rest[|Rules[k].pat|..], cap)[0] == rest[|Rules[k].pat|..]
    ensures Expand(rest, cap)[0] == rest
  {
    RulesShape();
    var suffix := rest[|Rules[k].pat|..];
    CrossHead(Rules[k].alts, Expand(suffix, cap));
    assert Rules[k].pat + suffix == rest;
  }

  /** A copied character goes before the remainder's first expansion. */
  lemma ExpandHeadByCopy(rest: string, cap: nat)
    requires |rest| > 0 && FirstRule(rest, 0).None?
    requires Expand(rest[1..], cap)[0] == rest[1..]
    ensures Expand(rest, cap)[0] == rest
  {
    assert [rest[0]] + rest[1..] == rest;
  }

  /**
   * Every rule but `zzi` lists its own pattern first, so a canonical string
   * without "zzi" is the first of its own expansions.
   */
  lemma {:induction false} CanonicalExpandsFirst(rest: string, cap: nat)
    requires !HasZzi(rest)
    ensures Expand(rest, cap)[0] == rest
    decreases |rest|
  {
    if |rest| > 0 {
      match FirstRule(rest, 0)
      case Some(k) =>
        RuleIsNotZzi(rest, k);
        NoZziInSuffix(rest, |Rules[k].pat|);
        CanonicalExpandsFirst(rest[|Rules[k].pat|..], cap);
        ExpandHeadByRule(rest, cap, k);
      case None =>
        NoZziInSuffix(rest, 1);
        CanonicalExpandsFirst(rest[1..], cap);
        ExpandHeadByCopy(rest, cap);
    }
  }

  lemma {:induction false} DedupeKeepsFirst(xs: seq<string>, cap: nat)
    requires |xs| > 0
    ensures DedupeFrom(xs, [], cap)[0] == xs[0]
  {
    if |[] + [xs[0]]| < cap {
      assert [xs[0]] <= DedupeFrom(xs[1..], [xs[0]], cap);
    }
  }

  /** A canonical string without "zzi" is its own first variant. */
  lemma {:induction false} CanonicalIsFirstVariant(s: string, cap: nat)
    requires !HasZzi(s)
    ensures Variants(s, cap)[0] == s
  {
    CanonicalExpandsFirst(s, cap);
    DedupeKeepsFirst(Expand(s, cap), cap);
  }

  /**
   * The `zzi` rule lists only "jji": a canonical string that starts with "zzi"
   * is not among its own variants (which is why both callers compare with the
   * canonical string first).
   */
  lemma {:induction false} ZziCanonicalNotAVariant(s: string, cap: nat)
    requires ZziAt(s, 0)
    ensures forall x :: x in Expand(s, cap) ==> "jji" <= x
    ensures s !in Variants(s, cap)
  {
    ZziExpansion(s, cap);
    var tails := Expand(s[3..], cap);
    var row := Row("jji", tails);
    forall x | x in Expand(s, cap) ensures "jji" <= x {
      InTake(row, cap + 1, x);
      var k :| 0 <= k < |row| && row[k] == x;
    }
    assert !("jji" <= s) by {
      assert s[0] != "jji"[0];
    }
  }

  /** Only the `zzi` rule matches a string starting with "zzi", and it has a single alternative. */
  lemma {:induction false} ZziExpansion(s: string, cap: nat)
    requires ZziAt(s, 0)
    ensures |s| >= 3
    ensures Expand(s, cap) == Take(Row("jji", Expand(s[3..], cap)), cap + 1)
  {
    RulesShape();
    forall j | 0 <= j < ZziRule ensures !(Rules[j].pat <= s) {
      PatternDiffersAt(j, s, 0);
    }
    ExpandFirstMatchWins(s, cap, ZziRule);
    assert ["jji"][..0] == [];
  }

  lemma InTake<T>(xs: seq<T>, n: nat, x: T)
    requires x in Take(xs, n)
    ensures x in xs
  {
    var r := Take(xs, n);
    var k :| 0 <= k < |r| && r[k] == x;
    assert xs[k] == x;
  }

  /** "shi" may also be typed "si"; "chi" also "ti" or "ci". */
  lemma ShiAndChiVariants()
    ensures Variants("shi", VariantCap) == ["shi", "si"]
    ensures Variants("chi", VariantCap) == ["chi", "ti", "ci"]
  {
    ExpandShi("shi");
    DedupeTwo("shi", "si");
    ExpandChi("chi");
    DedupeThree("chi", "ti", "ci");
  }

  /** Crossing with the single empty tail leaves the alternatives as they are. */
  lemma CrossEmptyTail(alts: seq<string>)
    ensures Cross(alts, [""]) == alts
  {
    CrossOneTail(alts, "");
    assert forall i :: 0 <= i < |alts| ==> alts[i] + "" == alts[i];
  }

  lemma ShiRuleAlone(s: string)
    requires s == "shi"
    ensures Expand(s, VariantCap) == Take(Cross(["shi", "si"], Expand(s[3..], VariantCap)), VariantCap + 1)
  {
    RulesShape();
    forall j | 0 <= j < 6 ensures !(Rules[j].pat <= s) {
      if j < 3 {
        PatternDiffersAt(j, s, 2);
      } else {
        PatternDiffersAt(j, s, 0);
      }
    }
    ExpandFirstMatchWins(s, VariantCap, 6);
  }

  lemma ExpandShi(s: string)
    requires s == "shi"
    ensures Expand(s, VariantCap) == ["shi", "si"]
  {
    ShiRuleAlone(s);
    assert s[3..] == "";
    assert Expand(s[3..], VariantCap) == [""];
    CrossEmptyTail(["shi", "si"]);
  }

  lemma ChiRuleAlone(s: string)
    requires s == "chi"
    ensures Expand(s, VariantCap) == Take(Cross(["chi", "ti", "ci"], Expand(s[3..], VariantCap)), VariantCap + 1)
  {
    RulesShape();
    forall j | 0 <= j < 7 ensures !(Rules[j].pat <= s) {
      PatternDiffersAt(j, s, 0);
    }
    ExpandFirstMatchWins(s, VariantCap, 7);
  }

  lemma ExpandChi(s: string)
    requires s == "chi"
    ensures Expand(s, VariantCap) == ["chi", "ti", "ci"]
  {
    ChiRuleAlone(s);
    assert s[3..] == "";
    assert Expand(s[3..], VariantCap) == [""];
    CrossEmptyTail(["chi", "ti", "ci"]);
  }

  lemma DedupeTwo(a: string, b: string)
    requires a != b
    ensures DedupeFrom([a, b], [], VariantCap) == [a, b]
  {
    assert [a, b][1..] == [b];
    assert [b][1..] == [];
    assert [] + [a] == [a];
    assert [a] + [b] == [a, b];
    assert DedupeFrom([b], [a], VariantCap) == [a, b];
  }

  lemma DedupeThree(a: string, b: string, c: string)
    requires a != b && a != c && b != c
    ensures DedupeFrom([a, b, c], [], VariantCap) == [a, b, c]
  {
    assert [a, b, c][1..] == [b, c];
    assert [b, c][1..] == [c];
    assert [c][1..] == [];
    assert [] + [a] == [a];
    assert [a] + [b] == [a, b];
    assert [a, b] + [c] == [a, b, c];
    assert DedupeFrom([c], [a, b], VariantCap) == [a, b, c];
    assert DedupeFrom([b, c], [a], VariantCap) == [a, b, c];
  }

  // ---------------------------------------------------------------------------
  // The imperative variant generator
  // ---------------------------------------------------------------------------

  /** Every memo entry is the expansion of its key. */
  predicate MemoSound(memo: map<string, seq<string>>, cap: nat) {
    forall k :: k in memo ==> memo[k] == Expand(k, cap)
  }

  lemma {:induction false} CrossExtend(alts: seq<string>, a: nat, tails: seq<string>)
    requires a < |alts|
    ensures Cross(alts[..a + 1], tails) == Cross(alts[..a], tails) + Row(alts[a], tails)
  {
    assert alts[..a + 1][..a] == alts[..a];
  }

  lemma {:induction false} CrossPrefix(alts: seq<string>, a: nat, tails: seq<string>)
    requires a <= |alts|
    ensures Cross(alts[..a], tails) <= Cross(alts, tails)
    decreases |alts| - a
  {
    if a < |alts| {
      CrossExtend(alts, a, tails);
      CrossPrefix(alts, a + 1, tails);
    } else {
      assert alts[..a] == alts;
    }
  }

  /** The nested loops' state when they stop on the cap is the product cut after `cap + 1` entries. */
  lemma {:induction false} StoppedIsTake(alts: seq<string>, a: nat, t: nat, tails: seq<string>, cap: nat)
    requires a < |alts| && t <= |tails|
    requires |Cross(alts[..a], tails) + Row(alts[a], tails[..t])| == cap + 1
    ensures Cross(alts[..a], tails) + Row(alts[a], tails[..t]) == Take(Cross(alts, tails), cap + 1)
  {
    var arr := Cross(alts[..a], tails) + Row(alts[a], tails[..t]);
    CrossExtend(alts, a, tails);
    CrossPrefix(alts, a + 1, tails);
    assert arr <= Cross(alts[..a + 1], tails);
  }

  /**
   * The nested loops of the `helper` closure: every alternative before every
   * tail, stopping as soon as more than `cap` strings are collected.
   */
  method CrossCapped(alts: seq<string>, tails: seq<string>, cap: nat) returns (arr: seq<string>)
    ensures arr == Take(Cross(alts, tails), cap + 1)
  {
    arr := [];
    var a := 0;
    while a < |alts|
      invariant 0 <= a <= |alts|
      invariant arr == Cross(alts[..a], tails) && |arr| <= cap
    {
      var t := 0;
      while t < |tails|
        invariant 0 <= t <= |tails|
        invariant arr == Cross(alts[..a], tails) + Row(alts[a], tails[..t]) && |arr| <= cap
      {
        assert tails[..t + 1] == tails[..t] + [tails[t]];
        arr := arr + [alts[a] + tails[t]];
        t := t + 1;
        if |arr| > cap {
          break;
        }
      }
      if |arr| > cap {
        StoppedIsTake(alts, a, t, tails, cap);
        return;
      }
      assert tails[..t] == tails;
      CrossExtend(alts, a, tails);
      a := a + 1;
    }
    assert alts[..a] == alts;
  }

  /** The `helper` closure: memo lookup, the rule scan, then the capped product or the copied character. */
  method ExpandMemo(rest: string, cap: nat, memo: map<string, seq<string>>)
    returns (arr: seq<string>, memo': map<string, seq<string>>)
    requires MemoSound(memo, cap)
    ensures arr == Expand(rest, cap)
    ensures MemoSound(memo', cap)
    decreases |rest|
  {
    if rest in memo {
      return memo[rest], memo;
    }
    if |rest| == 0 {
      return [""], memo;
    }
    RulesShape();
    var i := 0;
    while i < |Rules|
      invariant 0 <= i <= |Rules|
      invariant forall j :: 0 <= j < i ==> !(Rules[j].pat <= rest)
    {
      var rule := Rules[i];
      if rule.pat <= rest {
        var tails;
        tails, memo' := ExpandMemo(rest[|rule.pat|..], cap, memo);
        arr := CrossCapped(rule.alts, tails, cap);
        ExpandFirstMatchWins(rest, cap, i);
        memo' := memo'[rest := arr];
        return;
      }
      i := i + 1;
    }
    var tails;
    tails, memo' := ExpandMemo(rest[1..], cap, memo);
    arr := seq(|tails|, j requires 0 <= j < |tails| => [rest[0]] + tails[j]);
    ExpandCopiesUnmatched(rest, cap);
    assert arr == Row([rest[0]], tails);
    memo' := memo'[rest := arr];
  }

  /** `generateRomajiVariants`: expand through the memo, then keep the first occurrence of each string. */
  method GenerateRomajiVariants(s: string, cap: nat) returns (uniq: seq<string>)
    ensures uniq == Variants(s, cap)
  {
    var res, _ := ExpandMemo(s, cap, map[]);
    uniq := [];
    var seen: set<string> := {};
    var i := 0;
    while i < |res|
      invariant 0 <= i <= |res|
      invariant forall x :: x in seen <==> x in uniq
      invariant NoDuplicates(uniq) && |uniq| < Num.Max(cap, 1)
      invariant DedupeFrom(res[i..], uniq, cap) == DedupeFrom(res, [], cap)
    {
      var r := res[i];
      if r !in seen {
        seen := seen + {r};
        uniq := uniq + [r];
        if |uniq| >= cap {
          break;
        }
      }
      i := i + 1;
    }
  }

  // ---------------------------------------------------------------------------
  // Acceptance
  // ---------------------------------------------------------------------------

  /** The normal form both sides are compared in by `isAcceptedRomaji`. */
  function Normalize(s: string): (r: string)
    ensures |r| <= |s|
    ensures Lower(r) == r && Trim(r) == r
  {
    LowerIdempotent(Trim(s));
    LowerTrimCommute(Trim(s));
    TrimIdempotent(s);
    TrimStartDropsWhite(s);
    TrimEndDropsWhite(TrimStart(s));
    Lower(Trim(s))
  }

  /**
   * `isAcceptedRomaji`: the trimmed, lower-cased input is the trimmed, lower-cased
   * canonical string or one of its variants.
   */
  function IsAcceptedRomaji(input: string, canonical: string): (r: bool)
    ensures Normalize(input) == Normalize(canonical) ==> r
  {
    var v := Normalize(input);
    var canon := Normalize(canonical);
    v == canon || v in Variants(canon, VariantCap)
  }

  /** An accepted input is, in normal form, the canonical string or one of its expansions. */
  lemma {:induction false} AcceptedIsSpelling(input: string, canonical: string)
    requires IsAcceptedRomaji(input, canonical)
    ensures Normalize(input) == Normalize(canonical) || Normalize(input) in Expand(Normalize(canonical), VariantCap)
  {
  }

  /** Acceptance ignores surrounding white space and letter case in the input. */
  lemma {:induction false} AcceptanceIgnoresCaseAndSpace(input: string, canonical: string)
    ensures IsAcceptedRomaji(input, canonical) == IsAcceptedRomaji(Normalize(input), canonical)
  {
    NormalizeIdempotent(input);
  }

  /** Every canonical string accepts itself, "zzi" included, though "zzi" is not its own variant. */
  lemma {:induction false} CanonicalAccepted(canonical: string)
    ensures IsAcceptedRomaji(canonical, canonical)
    ensures IsAcceptedRomaji("zzi", "zzi") && "zzi" !in Variants("zzi", VariantCap)
  {
    assert ZziAt("zzi", 0);
    ZziCanonicalNotAVariant("zzi", VariantCap);
  }

  /** A word of lower-case letters is its own normal form. */
  lemma NormalizeLowerWord(w: string)
    requires forall i :: 0 <= i < |w| ==> 'a' <= w[i] <= 'z'
    ensures Normalize(w) == w
  {
    TrimStartOfTrimmed(w);
    TrimEndOfTrimmed(w);
  }

  lemma NormalizeSpaced(spaced: string, typed: string)
    requires spaced == " SI " && typed == "si"
    ensures Normalize(spaced) == typed
  {
    assert " SI "[1..] == "SI ";
    TrimStartOfTrimmed("SI ");
    assert "SI "[..2] == "SI";
    TrimEndOfTrimmed("SI");
    assert Trim(" SI ") == "SI";
    var l := Lower("SI");
    assert l[0] == 's' && l[1] == 'i';
  }

  /** A variant of a canonical string in normal form is accepted. */
  lemma {:induction false} VariantAccepted(input: string, canonical: string)
    requires Normalize(input) in Variants(Normalize(canonical), VariantCap)
    ensures IsAcceptedRomaji(input, canonical)
  {
  }

  lemma SiIsVariantOfShi(canonical: string, typed: string)
    requires canonical == "shi" && typed == "si"
    ensures typed in Variants(canonical, VariantCap)
  {
    ShiAndChiVariants();
  }

  /** "si" completes the canonical "shi", and so does " SI " once trimmed and lower-cased. */
  lemma ShiAcceptsSi(canonical: string, typed: string, spaced: string)
    requires canonical == "shi" && typed == "si" && spaced == " SI "
    ensures IsAcceptedRomaji(typed, canonical)
    ensures IsAcceptedRomaji(spaced, canonical)
  {
    NormalizeLowerWord(canonical);
    NormalizeLowerWord(typed);
    SiIsVariantOfShi(canonical, typed);
    VariantAccepted(typed, canonical);
    NormalizeSpaced(spaced, typed);
    AcceptanceIgnoresCaseAndSpace(spaced, canonical);
  }

  /**
   * The lower-cased (not trimmed) input starts the lower-cased canonical string
   * or one of its variants.
   */
  predicate PrefixesSomeSpelling(input: string, canonical: string) {
    Lower(input) <= Lower(canonical) || PrefixOfAny(Lower(input), Variants(Lower(canonical), VariantCap))
  }

  /** `v` starts some string of `xs`. */
  predicate PrefixOfAny(v: string, xs: seq<string>) {
    |xs| > 0 && (v <= xs[0] || PrefixOfAny(v, xs[1..]))
  }

  lemma {:induction false} PrefixOfAnyIff(v: string, xs: seq<string>)
    ensures PrefixOfAny(v, xs) <==> exists x :: x in xs && v <= x
  {
    if |xs| > 0 {
      PrefixOfAnyIff(v, xs[1..]);
      if PrefixOfAny(v, xs) {
        if v <= xs[0] {
          assert xs[0] in xs;
        } else {
          var x :| x in xs[1..] && v <= x;
          assert x in xs;
        }
      } else {
        assert forall x :: x in xs ==> x == xs[0] || x in xs[1..];
      }
    }
  }

  /** `prefixOKVariants`, a loop over the generated variants. */
  method PrefixOKVariants(input: string, canonical: string) returns (ok: bool)
    ensures ok <==> PrefixesSomeSpelling(input, canonical)
  {
    var v := Lower(input);
    var canon := Lower(canonical);
    if v <= canon {
      return true;
    }
    var vars := GenerateRomajiVariants(canon, VariantCap);
    PrefixOfAnyIff(v, vars);
    for i := 0 to |vars|
      invariant forall j :: 0 <= j < i ==> !(v <= vars[j])
    {
      if v <= vars[i] {
        assert vars[i] in Variants(canon, VariantCap);
        return true;
      }
    }
    return false;
  }

  /** "konnichiha" is not on any spelling of "konnichiwa", though "konnichi" is. */
  lemma KonnichiwaRejectsHa()
    ensures forall x :: x in Variants("konnichiwa", VariantCap) ==> !("konnichiha" <= x)
    ensures !("konnichiha" <= "konnichiwa") && "konnichi" <= "konnichiwa"
  {
    ExpandKonnichiwa("konnichiwa");
    PatternMismatch("konnichiha", "konnichiwa", 8);
    PatternMismatch("konnichiha", "konnitiwa", 5);
    PatternMismatch("konnichiha", "konniciwa", 6);
  }

  lemma PatternMismatch(p: string, s: string, i: nat)
    requires i < |p| && i < |s| && p[i] != s[i]
    ensures !(p <= s)
  {
  }

  lemma ExpandWa()
    ensures Expand("wa", VariantCap) == ["wa"]
  {
    assert Expand("", VariantCap) == [""];
    CopyChar("a", [""]);
    assert "a"[1..] == "";
    RowSingle(['a'], "");
    assert ['a'] + "" == "a";
    CopyChar("wa", ["a"]);
    assert "wa"[1..] == "a";
    RowSingle(['w'], "a");
    assert ['w'] + "a" == "wa";
  }

  lemma ExpandChiwa(s: string)
    requires s == "chiwa"
    ensures Expand(s, VariantCap) == ["chiwa", "tiwa", "ciwa"]
  {
    ChiRuleFirst(s);
    assert s[3..] == "wa";
    ExpandWa();
    CrossChiTail(Expand(s[3..], VariantCap));
  }

  lemma ChiRuleFirst(s: string)
    requires s == "chiwa"
    ensures Expand(s, VariantCap) == Take(Cross(["chi", "ti", "ci"], Expand(s[3..], VariantCap)), VariantCap + 1)
  {
    RulesShape();
    forall j | 0 <= j < 7 ensures !(Rules[j].pat <= s) {
      PatternDiffersAt(j, s, 0);
    }
    ExpandFirstMatchWins(s, VariantCap, 7);
  }

  lemma CrossChiTail(t: seq<string>)
    requires t == ["wa"]
    ensures Take(Cross(["chi", "ti", "ci"], t), VariantCap + 1) == ["chiwa", "tiwa", "ciwa"]
  {
    CrossOneTail(["chi", "ti", "ci"], "wa");
    var c := Cross(["chi", "ti", "ci"], ["wa"]);
    assert c[0] == "chiwa" && c[1] == "tiwa" && c[2] == "ciwa";
    assert c == ["chiwa", "tiwa", "ciwa"];
  }

  /** "konni" has no rule, so its characters are copied in front of the three spellings of "chiwa". */
  lemma ExpandKonnichiwa(s: string)
    requires s == "konnichiwa"
    ensures Expand(s, VariantCap) == ["konnichiwa", "konnitiwa", "konniciwa"]
  {
    ExpandOnnichiwa(s[1..]);
    CopyThree(s, "onnichiwa", "onnitiwa", "onniciwa");
    Cons(s[0], "onnichiwa", "konnichiwa");
    Cons(s[0], "onnitiwa", "konnitiwa");
    Cons(s[0], "onniciwa", "konniciwa");
  }

  lemma ExpandOnnichiwa(s: string)
    requires s == "onnichiwa"
    ensures Expand(s, VariantCap) == ["onnichiwa", "onnitiwa", "onniciwa"]
  {
    ExpandNnichiwa(s[1..]);
    CopyThree(s, "nnichiwa", "nnitiwa", "nniciwa");
    Cons(s[0], "nnichiwa", "onnichiwa");
    Cons(s[0], "nnitiwa", "onnitiwa");
    Cons(s[0], "nniciwa", "onniciwa");
  }

  lemma ExpandNnichiwa(s: string)
    requires s == "nnichiwa"
    ensures Expand(s, VariantCap) == ["nnichiwa", "nnitiwa", "nniciwa"]
  {
    ExpandNichiwa(s[1..]);
    CopyThree(s, "nichiwa", "nitiwa", "niciwa");
    Cons(s[0], "nichiwa", "nnichiwa");
    Cons(s[0], "nitiwa", "nnitiwa");
    Cons(s[0], "niciwa", "nniciwa");
  }

  lemma ExpandNichiwa(s: string)
    requires s == "nichiwa"
    ensures Expand(s, VariantCap) == ["nichiwa", "nitiwa", "niciwa"]
  {
    ExpandIchiwa(s[1..]);
    CopyThree(s, "ichiwa", "itiwa", "iciwa");
    Cons(s[0], "ichiwa", "nichiwa");
    Cons(s[0], "itiwa", "nitiwa");
    Cons(s[0], "iciwa", "niciwa");
  }

  lemma ExpandIchiwa(s: string)
    requires s == "ichiwa"
    ensures Expand(s, VariantCap) == ["ichiwa", "itiwa", "iciwa"]
  {
    ExpandChiwa(s[1..]);
    CopyThree(s, "chiwa", "tiwa", "ciwa");
    Cons(s[0], "chiwa", "ichiwa");
    Cons(s[0], "tiwa", "itiwa");
    Cons(s[0], "ciwa", "iciwa");
  }

  lemma Cons(c: char, w: string, cw: string)
    requires |cw| == |w| + 1 && cw[0] == c && cw[1..] == w
    ensures [c] + w == cw
  {
    assert forall k :: 0 <= k < |cw| ==> ([c] + w)[k] == cw[k];
  }

  /** One copied character in front of a three-spelling expansion. */
  lemma CopyThree(s: string, a: string, b: string, c: string)
    requires |s| > 0 && s[0] !in {'s', 'j', 'c', 't', 'f', 'z'}
    requires Expand(s[1..], VariantCap) == [a, b, c]
    ensures Expand(s, VariantCap) == [[s[0]] + a, [s[0]] + b, [s[0]] + c]
  {
    CopyChar(s, [a, b, c]);
    RowThree([s[0]], a, b, c);
  }

  lemma RowThree(alt: string, a: string, b: string, c: string)
    ensures Row(alt, [a, b, c]) == [alt + a, alt + b, alt + c]
  {
    var r := Row(alt, [a, b, c]);
    assert |r| == 3 && r[0] == alt + a && r[1] == alt + b && r[2] == alt + c;
  }

  /** A character no pattern starts with is copied in front of every expansion of the remainder. */
  lemma CopyChar(s: string, tails: seq<string>)
    requires |s| > 0 && s[0] !in {'s', 'j', 'c', 't', 'f', 'z'}
    requires Expand(s[1..], VariantCap) == tails
    ensures Expand(s, VariantCap) == Row([s[0]], tails)
  {
    NoRuleAt(s);
    ExpandCopiesUnmatched(s, VariantCap);
  }

  // ---------------------------------------------------------------------------
  // Highlight
  // ---------------------------------------------------------------------------

  /** The length of the longest common prefix of `a` and `b`. */
  function CommonPrefix(a: string, b: string): (n: nat)
    ensures n <= |a| && n <= |b|
    ensures a[..n] == b[..n]
    ensures n < |a| && n < |b| ==> a[n] != b[n]
  {
    if |a| == 0 || |b| == 0 || a[0] != b[0] then 0
    else
      var m := CommonPrefix(a[1..], b[1..]);
      assert a[..m + 1] == [a[0]] + a[1..][..m];
      assert b[..m + 1] == [b[0]] + b[1..][..m];
      m + 1
  }

  /** A prefix length that cannot be extended is the common prefix length. */
  lemma {:induction false} CommonPrefixIs(a: string, b: string, n: nat)
    requires n <= |a| && n <= |b| && a[..n] == b[..n]
    requires n < |a| && n < |b| ==> a[n] != b[n]
    ensures CommonPrefix(a, b) == n
    decreases n
  {
    if n > 0 {
      assert a[0] == a[..n][0] && b[0] == b[..n][0];
      assert a[1..][..n - 1] == a[..n][1..];
      assert b[1..][..n - 1] == b[..n][1..];
      CommonPrefixIs(a[1..], b[1..], n - 1);
    }
  }

  /** `commonPrefixLen`: the loop that stops at the first differing character. */
  method CommonPrefixLen(a: string, b: string) returns (i: nat)
    ensures i == CommonPrefix(a, b)
  {
    i := 0;
    while i < |a| && i < |b|
      invariant i <= |a| && i <= |b|
      invariant a[..i] == b[..i]
    {
      if a[i] != b[i] {
        break;
      }
      assert a[..i + 1] == a[..i] + [a[i]];
      assert b[..i + 1] == b[..i] + [b[i]];
      i := i + 1;
    }
    CommonPrefixIs(a, b, i);
  }

  /** The strings the highlight chooses from: the lower-cased canonical string, then its variants. */
  function Candidates(canonical: string): (c: seq<string>)
    ensures |c| >= 2 && c[0] == Lower(canonical)
    ensures forall x :: x in c[1..] ==> x in Expand(Lower(canonical), VariantCap)
  {
    [Lower(canonical)] + Variants(Lower(canonical), VariantCap)
  }

  /**
   * `cands[k]` shares the longest common prefix with `v` among all candidates,
   * and every earlier candidate shares a strictly shorter one.
   */
  predicate FirstLongest(v: string, cands: seq<string>, k: nat) {
    k < |cands|
    && (forall j :: 0 <= j < |cands| ==> CommonPrefix(v, cands[j]) <= CommonPrefix(v, cands[k]))
    && (forall j :: 0 <= j < k ==> CommonPrefix(v, cands[j]) < CommonPrefix(v, cands[k]))
  }

  /** At most one candidate is the first longest match. */
  lemma {:induction false} FirstLongestUnique(v: string, cands: seq<string>, k: nat, m: nat)
    requires FirstLongest(v, cands, k) && FirstLongest(v, cands, m)
    ensures k == m
  {
    assert CommonPrefix(v, cands[m]) == CommonPrefix(v, cands[k]);
  }

  /** The first candidate wins every tie. */
  lemma {:induction false} FirstCandidateWinsTies(v: string, cands: seq<string>, k: nat)
    requires FirstLongest(v, cands, k) && |cands| > 0
    requires CommonPrefix(v, cands[0]) == CommonPrefix(v, cands[k])
    ensures k == 0
  {
    assert !(0 < k) by {
      assert CommonPrefix(v, cands[0]) == CommonPrefix(v, cands[k]);
    }
  }

  /**
   * The loop of `bestMatchVariantForHighlight`: keep the first candidate with
   * a strictly longer common prefix, and stop once one covers the whole input.
   */
  method FirstLongestIndex(v: string, cands: seq<string>) returns (k: nat)
    requires |cands| > 0
    ensures FirstLongest(v, cands, k)
  {
    k := 0;
    var bestLen := CommonPrefixLen(v, cands[0]);
    var i := 0;
    while i < |cands|
      invariant 0 <= i <= |cands|
      invariant 0 <= k < |cands| && k <= i
      invariant bestLen == CommonPrefix(v, cands[k])
      invariant forall j :: 0 <= j < i ==> CommonPrefix(v, cands[j]) <= bestLen
      invariant forall j :: 0 <= j < k ==> CommonPrefix(v, cands[j]) < bestLen
    {
      var l := CommonPrefixLen(v, cands[i]);
      if l > bestLen {
        bestLen := l;
        k := i;
      }
      if bestLen == |v| {
        break;
      }
      i := i + 1;
    }
  }

  /**
   * `bestMatchVariantForHighlight`: the first candidate sharing the longest
   * prefix with the lower-cased input; the canonical string wins every tie.
   */
  method BestMatchVariantForHighlight(input: string, canonical: string) returns (best: string)
    ensures exists k: nat :: FirstLongest(Lower(input), Candidates(canonical), k) && Candidates(canonical)[k] == best
  {
    var canon := Lower(canonical);
    var vars := GenerateRomajiVariants(canon, VariantCap);
    var candidates := [canon] + vars;
    assert candidates == Candidates(canonical);
    var k := FirstLongestIndex(Lower(input), candidates);
    best := candidates[k];
  }

  /** What the highlight shows: the typed part, the next expected character, the remainder. */
  datatype Highlight = Highlight(correct: string, next: string, rest: string, isMistake: bool)

  lemma LowerPrefix(s: string, n: nat)
    requires n <= |s|
    ensures Lower(s[..n]) == Lower(s)[..n]
  {
  }

  /** The variant cut after its first `n` characters, the next one, and the remainder. */
  function CutAt(variant: string, n: nat, inputLen: nat): (h: Highlight)
    requires n <= |variant|
    ensures h.correct + h.next + h.rest == variant && |h.correct| == n
    ensures |h.next| <= 1 && (|h.next| == 0 ==> h.rest == [])
    ensures h.isMistake <==> inputLen > n
  {
    var next := if n < |variant| then variant[n..n + 1] else [];
    var rest := if n + 1 <= |variant| then variant[n + 1..] else [];
    assert variant[..n] + next + rest == variant;
    Highlight(variant[..n], next, rest, inputLen > n)
  }

  /**
   * `splitForHighlight`: the best-matching candidate cut at its common prefix with
   * the input; a mistake is flagged when the input runs past that prefix.
   */
  method SplitForHighlight(input: string, target: string) returns (h: Highlight)
    ensures exists k: nat :: FirstLongest(Lower(input), Candidates(target), k)
                             && Candidates(target)[k] == h.correct + h.next + h.rest
    ensures |h.correct| == CommonPrefix(Lower(input), Lower(h.correct + h.next + h.rest))
    ensures |h.next| <= 1 && (|h.next| == 0 ==> h.rest == [])
    ensures Lower(input)[..|h.correct|] == Lower(h.correct)
    ensures h.isMistake <==> |input| > |h.correct|
  {
    var variant := BestMatchVariantForHighlight(input, target);
    var correctLen := CommonPrefixLen(Lower(input), Lower(variant));
    h := CutAt(variant, correctLen, |input|);
    LowerPrefix(variant, correctLen);
  }
}
