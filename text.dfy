/** String helpers: `toLowerCase`, `trim`, `String(n)`, `padStart(2, '0')` and the mm:ss clock. */
module Text {

  /** The characters `String.prototype.trim` and the regular-expression class `\s` treat as white space. */
  predicate IsWhite(c: char) {
    || c == ' ' || c == '\t' || c == '\n' || c == '\r' || c == '\U{000B}' || c == '\U{000C}'
    || c == '\U{00A0}' || c == '\U{1680}' || ('\U{2000}' <= c <= '\U{200A}')
    || c == '\U{2028}' || c == '\U{2029}' || c == '\U{202F}' || c == '\U{205F}'
    || c == '\U{3000}' || c == '\U{FEFF}'
  }

  predicate IsUpper(c: char) { 'A' <= c <= 'Z' }

  predicate IsAsciiLetter(c: char) { 'a' <= c <= 'z' || 'A' <= c <= 'Z' }

  function LowerChar(c: char): (r: char)
    ensures !IsUpper(r)
    ensures IsWhite(r) <==> IsWhite(c)
  {
    if IsUpper(c) then (c as int + 32) as char else c
  }

  /** `toLowerCase`, on the ASCII letters. */
  function Lower(s: string): (r: string)
    ensures |r| == |s|
    ensures forall i :: 0 <= i < |s| ==> r[i] == LowerChar(s[i])
  {
    seq(|s|, i requires 0 <= i < |s| => LowerChar(s[i]))
  }

  function TrimStart(s: string): (r: string)
    ensures |r| <= |s|
    ensures |r| > 0 ==> !IsWhite(r[0])
  {
    if |s| > 0 && IsWhite(s[0]) then TrimStart(s[1..]) else s
  }

  function TrimEnd(s: string): (r: string)
    ensures |r| <= |s|
    ensures |r| > 0 ==> !IsWhite(r[|r| - 1])
  {
    if |s| > 0 && IsWhite(s[|s| - 1]) then TrimEnd(s[..|s| - 1]) else s
  }

  /** `trim`: the string without its leading and trailing white space. */
  function Trim(s: string): (r: string)
    ensures |r| > 0 ==> !IsWhite(r[0]) && !IsWhite(r[|r| - 1])
  {
    TrimEndDropsWhite(TrimStart(s));
    TrimEnd(TrimStart(s))
  }

  /** `TrimStart` drops a prefix made only of white space. */
  lemma {:induction false} TrimStartDropsWhite(s: string)
    ensures var r := TrimStart(s);
            r == s[|s| - |r|..] && forall i :: 0 <= i < |s| - |r| ==> IsWhite(s[i])
    decreases |s|
  {
    if |s| > 0 && IsWhite(s[0]) {
      TrimStartDropsWhite(s[1..]);
    }
  }

  /** `TrimEnd` drops a suffix made only of white space. */
  lemma {:induction false} TrimEndDropsWhite(s: string)
    ensures var r := TrimEnd(s);
            r == s[..|r|] && forall i :: |r| <= i < |s| ==> IsWhite(s[i])
    decreases |s|
  {
    if |s| > 0 && IsWhite(s[|s| - 1]) {
      TrimEndDropsWhite(s[..|s| - 1]);
    }
  }

  lemma {:induction false} TrimStartOfTrimmed(s: string)
    requires |s| > 0 ==> !IsWhite(s[0])
    ensures TrimStart(s) == s
  {
  }

  lemma {:induction false} TrimEndOfTrimmed(s: string)
    requires |s| > 0 ==> !IsWhite(s[|s| - 1])
    ensures TrimEnd(s) == s
  {
  }

  /** Trimming twice is trimming once. */
  lemma {:induction false} TrimIdempotent(s: string)
    ensures Trim(Trim(s)) == Trim(s)
  {
    var t := Trim(s);
    TrimStartOfTrimmed(t);
    TrimEndOfTrimmed(t);
  }

  lemma {:induction false} LowerIdempotent(s: string)
    ensures Lower(Lower(s)) == Lower(s)
  {
    assert forall i :: 0 <= i < |s| ==> Lower(Lower(s))[i] == Lower(s)[i];
  }

  lemma {:induction false} LowerTrimStart(s: string)
    ensures Lower(TrimStart(s)) == TrimStart(Lower(s))
    decreases |s|
  {
    if |s| > 0 && IsWhite(s[0]) {
      assert Lower(s)[1..] == Lower(s[1..]);
      LowerTrimStart(s[1..]);
    }
  }

  lemma {:induction false} LowerTrimEnd(s: string)
    ensures Lower(TrimEnd(s)) == TrimEnd(Lower(s))
    decreases |s|
  {
    if |s| > 0 && IsWhite(s[|s| - 1]) {
      assert Lower(s)[..|s| - 1] == Lower(s[..|s| - 1]);
      LowerTrimEnd(s[..|s| - 1]);
    }
  }

  /** Lower-casing and trimming commute, since no letter is white space. */
  lemma {:induction false} LowerTrimCommute(s: string)
    ensures Lower(Trim(s)) == Trim(Lower(s))
  {
    LowerTrimEnd(TrimStart(s));
    LowerTrimStart(s);
  }

  /** The normalisation `trim().toLowerCase()` is idempotent. */
  lemma {:induction false} NormalizeIdempotent(s: string)
    ensures Lower(Trim(Lower(Trim(s)))) == Lower(Trim(s))
  {
    LowerTrimCommute(Trim(s));
    TrimIdempotent(s);
    LowerIdempotent(Trim(s));
  }

  // ----- decimal numerals -----

  predicate IsDigit(c: char) { '0' <= c <= '9' }

  function DigitChar(d: nat): (c: char)
    requires d < 10
    ensures IsDigit(c)
  {
    ('0' as int + d) as char
  }

  function DigitValue(c: char): nat
    requires IsDigit(c)
  {
    c as int - '0' as int
  }

  /** `String(n)` for a non-negative integer: its decimal numeral, without leading zeros. */
  function Decimal(n: nat): (s: string)
    ensures 1 <= |s|
    ensures forall i :: 0 <= i < |s| ==> IsDigit(s[i])
    ensures |s| > 1 ==> s[0] != '0'
  {
    if n < 10 then [DigitChar(n)] else Decimal(n / 10) + [DigitChar(n % 10)]
  }

  /** The number a string of decimal digits denotes (leading zeros allowed). */
  function ValueOf(s: string): nat
    requires forall i :: 0 <= i < |s| ==> IsDigit(s[i])
  {
    if |s| == 0 then 0 else ValueOf(s[..|s| - 1]) * 10 + DigitValue(s[|s| - 1])
  }

  lemma {:induction false} DecimalRoundTrip(n: nat)
    ensures ValueOf(Decimal(n)) == n
  {
    if n >= 10 {
      var s := Decimal(n);
      assert s[..|s| - 1] == Decimal(n / 10);
      DecimalRoundTrip(n / 10);
    }
  }

  lemma {:induction false} DecimalShort(n: nat)
    requires n < 100
    ensures |Decimal(n)| <= 2
  {
  }

  /** `padStart(2, '0')`. */
  function PadTwo(s: string): (r: string)
    ensures |r| == if |s| >= 2 then |s| else 2
    ensures r[|r| - |s|..] == s
    ensures forall i :: 0 <= i < |r| - |s| ==> r[i] == '0'
  {
    if |s| >= 2 then s else if |s| == 1 then ['0'] + s else "00"
  }

  lemma {:induction false} ZeroPadKeepsValue(s: string)
    requires forall i :: 0 <= i < |s| ==> IsDigit(s[i])
    ensures forall i :: 0 <= i < |PadTwo(s)| ==> IsDigit(PadTwo(s)[i])
    ensures ValueOf(PadTwo(s)) == ValueOf(s)
  {
    if |s| == 1 {
      ZeroPrefixKeepsValue(s);
    } else if |s| == 0 {
      ZeroPrefixKeepsValue("0");
    }
  }

  lemma {:induction false} ZeroPrefixKeepsValue(s: string)
    requires forall i :: 0 <= i < |s| ==> IsDigit(s[i])
    ensures ValueOf(['0'] + s) == ValueOf(s)
    decreases |s|
  {
    if |s| > 0 {
      assert (['0'] + s)[..|s|] == ['0'] + s[..|s| - 1];
      ZeroPrefixKeepsValue(s[..|s| - 1]);
    }
  }

  /**
   * `r` is a clock text for `sec` seconds: digits, a colon and two digits,
   * whose minutes times 60 plus seconds are `sec`.
   */
  predicate ShowsClock(r: string, sec: nat) {
    && |r| >= 5 && r[|r| - 3] == ':'
    && (forall i :: 0 <= i < |r| - 3 ==> IsDigit(r[i]))
    && (forall i :: |r| - 2 <= i < |r| ==> IsDigit(r[i]))
    && ValueOf(r[..|r| - 3]) * 60 + ValueOf(r[|r| - 2..]) == sec
  }

  /** The mm:ss clock text: minutes and seconds, each `String(...).padStart(2, '0')`. */
  function MmSs(sec: nat): string
  {
    PadTwo(Decimal(sec / 60)) + ":" + PadTwo(Decimal(sec % 60))
  }

  /**
   * The clock text is zero-padded: the seconds field has exactly two digits, the
   * minutes field at least two, and read back they give the minutes and the seconds.
   */
  lemma {:induction false} MmSsReadsBack(sec: nat)
    ensures var r := MmSs(sec);
      && |r| >= 5 && r[|r| - 3] == ':'
      && (forall i :: 0 <= i < |r| - 3 ==> IsDigit(r[i]))
      && (forall i :: |r| - 2 <= i < |r| ==> IsDigit(r[i]))
      && ValueOf(r[..|r| - 3]) == sec / 60
      && ValueOf(r[|r| - 2..]) == sec % 60
    ensures ShowsClock(MmSs(sec), sec)
  {
    var mm := PadTwo(Decimal(sec / 60));
    DecimalShort(sec % 60);
    var ss := PadTwo(Decimal(sec % 60));
    assert |ss| == 2;
    var r := MmSs(sec);
    assert r == mm + ":" + ss;
    assert r[..|r| - 3] == mm;
    assert r[|r| - 2..] == ss;
    ZeroPadKeepsValue(Decimal(sec / 60));
    ZeroPadKeepsValue(Decimal(sec % 60));
    DecimalRoundTrip(sec / 60);
    DecimalRoundTrip(sec % 60);
    assert (sec / 60) * 60 + sec % 60 == sec;
  }
}
