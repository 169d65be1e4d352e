/**
 * The time codec of lrxy/converter/utils.py: `deformatTime` reads a
 * timestamp such as `01:02.500` (more `:` groups allowed, an optional
 * trailing `s`) into integer milliseconds and `formatLrcTime` writes
 * milliseconds back as text.
 *
 * The sub-second separator is a parameter: '.' for LRC and TTML, ',' for the
 * SRT variants `deformat_time(..., srt=True)` and `format_time(..., srt=True)`.
 * Each group is read as an exact decimal number of seconds truncated to whole
 * milliseconds, where the source goes through a binary float.
 */
module TimeCodec {
  import opened Wrappers
  import opened Text
  import opened Lyrics

  function Pow60(i: nat): (p: nat)
    ensures p >= 1
  {
    if i == 0 then 1 else 60 * Pow60(i - 1)
  }

  /** A group's milliseconds weighed by its place `i` from the right: `ms * 60^i`. */
  function Scale(ms: nat, i: nat): nat
  {
    if i == 0 then ms else Scale(ms, i - 1) * 60
  }

  function Div(a: nat, b: nat): nat
    requires b >= 1
  {
    a / b
  }

  function Mod(a: nat, b: nat): nat
    requires b >= 1
  {
    a % b
  }

  /** The text ends with a digit followed by `s`, with no line break before that digit. */
  predicate HasSecondsSuffix(t: string)
  {
    |t| >= 2 && t[|t| - 1] == 's' && IsDigit(t[|t| - 2]) && IndexOf(t, '\n') >= |t| - 2
  }

  function StripSeconds(t: string): string
  {
    if HasSecondsSuffix(t) then t[..|t| - 1] else t
  }

  /** The first `n <= 3` digits after the separator, of value `v`, in milliseconds. */
  function FracMillis(v: nat, n: nat): nat
  {
    if n == 0 then 0 else if n == 1 then v * 100 else if n == 2 then v * 10 else v
  }

  /** One `:`-group read as a decimal number of seconds, in whole milliseconds:
      digits, optionally a separator and more digits, at least one digit in all.
      Only the first three digits after the separator count. */
  function GroupMillis(g: string, sep: char): Option<nat>
  {
    var k := IndexOf(g, sep);
    var lo := if k < |g| then k + 1 else |g|;
    var e := if lo + 3 <= |g| then lo + 3 else |g|;
    if 1 <= k + (|g| - lo) && DigitsIn(g, 0, k) && DigitsIn(g, lo, |g|) then
      assert DigitsIn(g, lo, e);
      Some(RangeValue(g, 0, k) * 1000 + FracMillis(RangeValue(g, lo, e), e - lo))
    else None
  }

  /** The last `i` groups summed the way the source's loop does, group `k` from the
      right weighed by `60^k`; `None` as soon as one of them is unreadable. */
  function Weighed(gs: seq<string>, sep: char, i: nat): Option<nat>
    requires i <= |gs|
  {
    if i == 0 then Some(0)
    else
      var rest := Weighed(gs, sep, i - 1);
      var g := GroupMillis(gs[|gs| - i], sep);
      if rest.Some? && g.Some? then Some(rest.value + Scale(g.value, i - 1)) else None
  }

  /** All the groups of a timestamp summed. */
  function GroupSum(gs: seq<string>, sep: char): Option<nat>
  {
    Weighed(gs, sep, |gs|)
  }

  /** A present timestamp read as milliseconds; `None` where `float()` would raise. */
  function ReadTime(text: string, sep: char): Option<nat>
  {
    GroupSum(Split(StripSeconds(text), ':'), sep)
  }

  /** `deformatTime`: an absent timestamp stays absent, an unreadable one raises. */
  function DecodeTime(text: Option<string>, sep: char): Result<Option<nat>, Error>
  {
    match text
    case None => Success(None)
    case Some(t) =>
      match ReadTime(t, sep)
      case Some(m) => Success(Some(m))
      case None => Failure(MalformedTime(t))
  }

  /** Once a group is unreadable the sum stays unreadable. */
  lemma {:induction false} WeighedFails(gs: seq<string>, sep: char, i: nat, n: nat)
    requires i <= n <= |gs| && Weighed(gs, sep, i).None?
    ensures Weighed(gs, sep, n).None?
  {
    if i < n {
      WeighedFails(gs, sep, i, n - 1);
    }
  }

  /** The loop of `deformatTime`: the groups summed from the right, group `i` from the
      right weighed by `60^i`; the first unreadable group raises. */
  method SumGroups(times: seq<string>, sep: char) returns (r: Option<nat>)
    ensures r == GroupSum(times, sep)
  {
    var n := |times|;
    var milis: nat := 0;
    var i: nat := 0;
    while i < n
      invariant 0 <= i <= n
      invariant Weighed(times, sep, i) == Some(milis)
    {
      var g := GroupMillis(times[n - 1 - i], sep);
      if g.None? {
        WeighedFails(times, sep, i + 1, n);
        return None;
      }
      milis := milis + Scale(g.value, i);
      i := i + 1;
    }
    return Some(milis);
  }

  /** `deformatTime`: an absent timestamp stays absent, a trailing `s` after a digit is
      dropped, and a group `float()` cannot read raises. */
  method DeformatTime(text: Option<string>, sep: char) returns (r: Result<Option<nat>, Error>)
    ensures r == DecodeTime(text, sep)
  {
    if text.None? {
      return Success(None);
    }
    var t := text.value;
    if HasSecondsSuffix(t) {
      t := t[..|t| - 1];
    }
    var sum := SumGroups(Split(t, ':'), sep);
    if sum.None? {
      return Failure(MalformedTime(text.value));
    }
    return Success(Some(sum.value));
  }

  /** Group `i` of `formatLrcTime`: `time % 60^i` padded to two digits, followed by ':'
      unless it is the seconds group. */
  function Group(time: nat, i: nat): string
  {
    Pad(Mod(time, Pow60(i)), 2) + (if i != 1 then ":" else "")
  }

  /** The groups `i` .. `i + k - 1` of `formatLrcTime`, most significant first, each one
      taken from what the groups before it left of `time`. */
  function Fields(time: nat, i: nat, k: nat): string
    decreases k
  {
    if k == 0 then "" else Fields(Div(time, Pow60(i)), i + 1, k - 1) + Group(time, i)
  }

  /** `formatLrcTime(milis, colons)` with the given sub-second separator. */
  function FormatTime(milis: nat, colons: nat, sep: char): string
  {
    Fields(milis / 1000, 1, colons + 1) + [sep] + Pad(milis % 1000, 3)
  }

  /** Taking off the least significant group of the fields, before whatever follows them. */
  lemma FieldsStep(time: nat, i: nat, k: nat, rest: string)
    requires k >= 1
    ensures Fields(time, i, k) + rest == Fields(Div(time, Pow60(i)), i + 1, k - 1) + (Group(time, i) + rest)
  {
  }

  /** `formatLrcTime`, prepending one group per round as the source does. */
  method FormatLrcTime(milis: nat, colons: nat, sep: char) returns (text: string)
    ensures text == FormatTime(milis, colons, sep)
  {
    text := [sep] + Pad(milis % 1000, 3);
    var time: nat := milis / 1000;
    for i := 1 to colons + 2
      invariant FormatTime(milis, colons, sep) == Fields(time, i, colons + 2 - i) + text
    {
      FieldsStep(time, i, colons + 2 - i, text);
      text := Group(time, i) + text;
      time := Div(time, Pow60(i));
    }
  }

  // ---------------------------------------------------------------------------
  // Properties of the codec
  // ---------------------------------------------------------------------------

  /** The text always ends with the separator and exactly three digits giving `milis % 1000`. */
  lemma FormatEndsWithMillis(milis: nat, colons: nat, sep: char)
    ensures var s := FormatTime(milis, colons, sep);
      |s| >= 4 && s[|s| - 4] == sep && AllDigits(s[|s| - 3..]) && Value(s[|s| - 3..]) == milis % 1000
  {
    var s := FormatTime(milis, colons, sep);
    var p := Pad(milis % 1000, 3);
    PadSpec(milis % 1000, 3);
    DigitsSpec(milis % 1000);
    assert s[|s| - 3..] == p;
  }

  lemma Regroup(a: string, b: string, c: string, d: string)
    ensures a + b + c + d == a + b + (c + d)
  {
  }

  /** The seconds group carries no ':'. */
  lemma SecondsGroup(time: nat)
    ensures Group(time, 1) == Pad(time % 60, 2)
  {
    assert Pow60(1) == 60;
  }

  /** Every group above the seconds is followed by ':'. */
  lemma UpperGroup(time: nat, i: nat)
    requires i != 1
    ensures Group(time, i) == Pad(time % Pow60(i), 2) + ":"
  {
  }

  lemma OneField(time: nat, i: nat)
    ensures Fields(time, i, 1) == Group(time, i)
  {
    assert Fields(time, i, 1) == Fields(Div(time, Pow60(i)), i + 1, 0) + Group(time, i);
  }

  /** The whole-second part of `formatLrcTime(m, 1)`: minutes, then seconds. */
  lemma TwoFields(t: nat)
    ensures Fields(t, 1, 2) == Pad((t / 60) % 3600, 2) + ":" + Pad(t % 60, 2)
  {
    assert Pow60(1) == 60;
    assert Pow60(2) == 3600;
    assert Fields(t, 1, 2) == Fields(t / 60, 2, 1) + Group(t, 1);
    OneField(t / 60, 2);
    UpperGroup(t / 60, 2);
    SecondsGroup(t);
  }

  /** The whole-second part of `formatLrcTime(m, 2)`: three groups. */
  lemma ThreeFields(t: nat)
    ensures Fields(t, 1, 3)
      == Pad((t / 60 / 3600) % 216000, 2) + ":" + Pad((t / 60) % 3600, 2) + ":" + Pad(t % 60, 2)
  {
    assert Pow60(1) == 60;
    assert Pow60(2) == 3600;
    assert Pow60(3) == 216000;
    assert Fields(t, 1, 3) == Fields(t / 60, 2, 2) + Group(t, 1);
    assert Fields(t / 60, 2, 2) == Fields(t / 60 / 3600, 3, 1) + Group(t / 60, 2);
    OneField(t / 60 / 3600, 3);
    UpperGroup(t / 60 / 3600, 3);
    UpperGroup(t / 60, 2);
    SecondsGroup(t);
  }

  lemma MinutesOfMillis(milis: nat)
    ensures milis / 1000 / 60 == milis / 60000
  {
  }

  /** With one colon the text is `MM:SS.mmm`: seconds `(m div 1000) mod 60`, minutes
      `(m div 60000) mod 3600`, each at least two digits. */
  lemma FormatOneColon(milis: nat, sep: char)
    ensures FormatTime(milis, 1, sep)
      == Pad((milis / 60000) % 3600, 2) + ":" + (Pad((milis / 1000) % 60, 2) + [sep] + Pad(milis % 1000, 3))
  {
    MinutesOfMillis(milis);
    TwoFields(milis / 1000);
    Regroup(Pad((milis / 60000) % 3600, 2), ":", Pad((milis / 1000) % 60, 2), [sep] + Pad(milis % 1000, 3));
  }

  /** With two colons the text is `HH:MM:SS,mmm` where the middle group is the total
      number of minutes modulo 3600, not modulo 60. */
  lemma FormatTwoColons(milis: nat, sep: char)
    ensures FormatTime(milis, 2, sep)
      == Pad((milis / 60000 / 3600) % 216000, 2) + ":" + Pad((milis / 60000) % 3600, 2) + ":"
         + (Pad((milis / 1000) % 60, 2) + [sep] + Pad(milis % 1000, 3))
  {
    MinutesOfMillis(milis);
    ThreeFields(milis / 1000);
    Regroup(Pad((milis / 60000 / 3600) % 216000, 2) + ":" + Pad((milis / 60000) % 3600, 2), ":",
      Pad((milis / 1000) % 60, 2), [sep] + Pad(milis % 1000, 3));
  }

  /** A group of digits alone reads as that many whole seconds. */
  lemma WholeGroup(d: string, sep: char)
    requires 1 <= |d| && AllDigits(d) && !IsDigit(sep)
    ensures GroupMillis(d, sep) == Some(Value(d) * 1000)
  {
    LacksInDigits(d, sep);
    IndexOfAt(d, sep, |d|);
  }

  /** Digits, the separator at `k` and three digits read as seconds plus milliseconds. */
  lemma FractionGroup(g: string, sep: char, k: nat)
    requires 1 <= k && k + 4 == |g| && g[k] == sep && !IsDigit(sep)
    requires DigitsIn(g, 0, k) && DigitsIn(g, k + 1, |g|)
    ensures GroupMillis(g, sep) == Some(RangeValue(g, 0, k) * 1000 + RangeValue(g, k + 1, |g|))
  {
    assert forall i | 0 <= i < k :: IsDigit(g[i]);
    IndexOfAt(g, sep, k);
  }

  /** Splits `m < 216,000,000` into minutes, seconds and milliseconds. */
  lemma MillisParts(m: nat)
    requires m < 216000000
    ensures m / 60000 < 3600
    ensures m / 1000 / 60 == m / 60000
    ensures m == (m / 60000) * 60000 + ((m / 1000) % 60) * 1000 + m % 1000
  {
    var s := m / 1000;
    assert m == s * 1000 + m % 1000;
    assert s == (s / 60) * 60 + s % 60;
    var q := s / 60;
    assert m == q * 60000 + (s % 60) * 1000 + m % 1000;
    assert 0 <= (s % 60) * 1000 + m % 1000 < 60000;
  }

  /** Two `:`-groups, the last not ending in `s`, split into exactly those two groups. */
  /** A last group that does not end in `s`, so no suffix is stripped. */
  predicate Unsuffixed(g: string)
  {
    |g| >= 1 && g[|g| - 1] != 's'
  }

  lemma ReadTwo(a: string, b: string, sep: char)
    requires Lacks(a, ':') && Lacks(b, ':') && Unsuffixed(b)
    ensures ReadTime(a + ":" + b, sep) == GroupSum([a, b], sep)
  {
    var s := a + ":" + b;
    assert s[|s| - 1] == b[|b| - 1];
    assert StripSeconds(s) == s;
    SplitFirst(a, ':', b);
    SplitNone(b, ':');
    assert Split(s, ':') == [a] + [b] == [a, b];
  }

  /** Three `:`-groups, the last not ending in `s`, split into exactly those groups. */
  lemma ReadThree(a: string, b: string, c: string, sep: char)
    requires Lacks(a, ':') && Lacks(b, ':') && Lacks(c, ':') && Unsuffixed(c)
    ensures ReadTime(a + ":" + b + ":" + c, sep) == GroupSum([a, b, c], sep)
  {
    var bc := b + ":" + c;
    var s := a + ":" + b + ":" + c;
    assert s == a + ":" + bc;
    assert s[|s| - 1] == c[|c| - 1];
    assert StripSeconds(s) == s;
    SplitFirst(b, ':', c);
    SplitNone(c, ':');
    assert Split(bc, ':') == [b, c];
    SplitFirst(a, ':', bc);
    assert Split(s, ':') == [a] + [b, c] == [a, b, c];
  }

  lemma GroupSumTwo(a: string, b: string, sep: char, va: nat, vb: nat)
    requires GroupMillis(a, sep) == Some(va) && GroupMillis(b, sep) == Some(vb)
    ensures GroupSum([a, b], sep) == Some(va * 60 + vb)
  {
    var gs := [a, b];
    assert Weighed(gs, sep, 1) == Some(Scale(vb, 0));
    assert Weighed(gs, sep, 2) == Some(Scale(vb, 0) + Scale(va, 1));
  }

  lemma GroupSumThree(a: string, b: string, c: string, sep: char, va: nat, vb: nat, vc: nat)
    requires GroupMillis(a, sep) == Some(va) && GroupMillis(b, sep) == Some(vb)
    requires GroupMillis(c, sep) == Some(vc)
    ensures GroupSum([a, b, c], sep) == Some(va * 3600 + vb * 60 + vc)
  {
    var gs := [a, b, c];
    assert Weighed(gs, sep, 1) == Some(Scale(vc, 0));
    assert Weighed(gs, sep, 2) == Some(Scale(vc, 0) + Scale(vb, 1));
    assert Scale(va, 1) == va * 60;
    assert Scale(va, 2) == va * 3600;
    assert Weighed(gs, sep, 3) == Some(Scale(vc, 0) + Scale(vb, 1) + Scale(va, 2));
  }

  /** Two readable groups joined by ':' read as the first in minutes plus the second. */
  lemma ReadTwoGroups(s: string, a: string, b: string, sep: char, va: nat, vb: nat, v: nat)
    requires s == a + ":" + b
    requires Lacks(a, ':') && GroupMillis(a, sep) == Some(va)
    requires Lacks(b, ':') && Unsuffixed(b) && GroupMillis(b, sep) == Some(vb)
    requires v == va * 60 + vb
    ensures ReadTime(s, sep) == Some(v)
  {
    GroupSumTwo(a, b, sep, va, vb);
    ReadTwo(a, b, sep);
  }

  /** Three readable groups joined by ':' read as hours, minutes and the last group. */
  lemma ReadThreeGroups(s: string, a: string, b: string, c: string, sep: char, va: nat, vb: nat, vc: nat, v: nat)
    requires s == a + ":" + b + ":" + c
    requires Lacks(a, ':') && GroupMillis(a, sep) == Some(va)
    requires Lacks(b, ':') && GroupMillis(b, sep) == Some(vb)
    requires Lacks(c, ':') && Unsuffixed(c) && GroupMillis(c, sep) == Some(vc)
    requires v == va * 3600 + vb * 60 + vc
    ensures ReadTime(s, sep) == Some(v)
  {
    GroupSumThree(a, b, c, sep, va, vb, vc);
    ReadThree(a, b, c, sep);
  }

  /** Two padded digits have no ':' and read as whole seconds. */
  lemma PaddedWhole(n: nat, sep: char)
    requires !IsDigit(sep)
    ensures Lacks(Pad(n, 2), ':') && GroupMillis(Pad(n, 2), sep) == Some(n * 1000)
  {
    PadSpec(n, 2);
    LacksInDigits(Pad(n, 2), ':');
    WholeGroup(Pad(n, 2), sep);
  }

  /** Digits, the separator and three digits have no ':' and do not end in `s`. */
  lemma JoinedShape(ss: string, sep: char, mmm: string)
    requires AllDigits(ss) && AllDigits(mmm) && |mmm| == 3 && sep != ':'
    ensures Lacks(ss + [sep] + mmm, ':') && (ss + [sep] + mmm)[|ss| + 3] != 's'
  {
    LacksInDigits(ss, ':');
    LacksInDigits(mmm, ':');
    assert Lacks([sep], ':');
    LacksConcat(ss, [sep], ':');
    LacksConcat(ss + [sep], mmm, ':');
    assert (ss + [sep] + mmm)[|ss| + 3] == mmm[2];
  }

  /** Digits, the separator and three digits read as seconds plus milliseconds. */
  lemma JoinedFraction(ss: string, sep: char, mmm: string)
    requires 1 <= |ss| && AllDigits(ss) && AllDigits(mmm) && |mmm| == 3 && !IsDigit(sep)
    ensures GroupMillis(ss + [sep] + mmm, sep) == Some(Value(ss) * 1000 + Value(mmm))
  {
    var k := |ss|;
    RangeValueInPrefix(ss, [sep], 0, k);
    RangeValueInPrefix(ss + [sep], mmm, 0, k);
    RangeValueInSuffix(ss + [sep], mmm);
    assert (ss + [sep] + mmm)[k] == sep;
    FractionGroup(ss + [sep] + mmm, sep, k);
  }

  /** `SS<sep>mmm` has no ':', does not end in `s`, and reads as seconds and milliseconds. */
  lemma PaddedFraction(sec: nat, ms: nat, sep: char)
    requires ms < 1000 && !IsDigit(sep) && sep != ':'
    ensures Lacks(Pad(sec, 2) + [sep] + Pad(ms, 3), ':')
    ensures Unsuffixed(Pad(sec, 2) + [sep] + Pad(ms, 3))
    ensures GroupMillis(Pad(sec, 2) + [sep] + Pad(ms, 3), sep) == Some(sec * 1000 + ms)
  {
    PadSpec(sec, 2);
    PadSpec(ms, 3);
    DigitsSpec(ms);
    JoinedShape(Pad(sec, 2), sep, Pad(ms, 3));
    JoinedFraction(Pad(sec, 2), sep, Pad(ms, 3));
  }

  /** The fields of a time below 60 hours put back together. */
  lemma MillisSum(milis: nat)
    requires milis < 216000000
    ensures milis == ((milis / 60000) % 3600) * 1000 * 60 + (((milis / 1000) % 60) * 1000 + milis % 1000)
    ensures milis == ((milis / 60000 / 3600) % 216000) * 1000 * 3600 + ((milis / 60000) % 3600) * 1000 * 60
      + (((milis / 1000) % 60) * 1000 + milis % 1000)
  {
    MillisParts(milis);
    assert (milis / 60000) % 3600 == milis / 60000;
    assert (milis / 60000 / 3600) % 216000 == 0;
  }

  /** `MM:SS<sep>mmm` reads back as minutes, seconds and milliseconds. */
  lemma ReadMinutes(s: string, m: nat, sec: nat, ms: nat, sep: char, milis: nat)
    requires s == Pad(m, 2) + ":" + (Pad(sec, 2) + [sep] + Pad(ms, 3))
    requires ms < 1000 && !IsDigit(sep) && sep != ':'
    requires milis == m * 1000 * 60 + (sec * 1000 + ms)
    ensures ReadTime(s, sep) == Some(milis)
  {
    PaddedWhole(m, sep);
    PaddedFraction(sec, ms, sep);
    ReadTwoGroups(s, Pad(m, 2), Pad(sec, 2) + [sep] + Pad(ms, 3), sep, m * 1000, sec * 1000 + ms, milis);
  }

  /** Reading back what `formatLrcTime(m)` wrote gives `m` for every `m` below 60 hours. */
  lemma RoundTripOneColon(milis: nat, sep: char)
    requires milis < 216000000
    requires !IsDigit(sep) && sep != ':'
    ensures ReadTime(FormatTime(milis, 1, sep), sep) == Some(milis)
  {
    FormatOneColon(milis, sep);
    MillisSum(milis);
    ReadMinutes(FormatTime(milis, 1, sep), (milis / 60000) % 3600, (milis / 1000) % 60, milis % 1000,
      sep, milis);
  }

  /** `HH:MM:SS<sep>mmm` reads back as hours, minutes, seconds and milliseconds. */
  lemma ReadHours(s: string, h: nat, m: nat, sec: nat, ms: nat, sep: char, milis: nat)
    requires s == Pad(h, 2) + ":" + Pad(m, 2) + ":" + (Pad(sec, 2) + [sep] + Pad(ms, 3))
    requires ms < 1000 && !IsDigit(sep) && sep != ':'
    requires milis == h * 1000 * 3600 + m * 1000 * 60 + (sec * 1000 + ms)
    ensures ReadTime(s, sep) == Some(milis)
  {
    PaddedWhole(h, sep);
    PaddedWhole(m, sep);
    PaddedFraction(sec, ms, sep);
    ReadThreeGroups(s, Pad(h, 2), Pad(m, 2), Pad(sec, 2) + [sep] + Pad(ms, 3), sep,
      h * 1000, m * 1000, sec * 1000 + ms, milis);
  }

  /** The same for the two-colon form `HH:MM:SS,mmm` that SRT uses. */
  lemma RoundTripTwoColons(milis: nat, sep: char)
    requires milis < 216000000
    requires !IsDigit(sep) && sep != ':'
    ensures ReadTime(FormatTime(milis, 2, sep), sep) == Some(milis)
  {
    FormatTwoColons(milis, sep);
    MillisSum(milis);
    ReadHours(FormatTime(milis, 2, sep), (milis / 60000 / 3600) % 216000, (milis / 60000) % 3600,
      (milis / 1000) % 60, milis % 1000, sep, milis);
  }

  /** A trailing `s` after a digit is ignored. */
  lemma SecondsSuffixIgnored(t: string, sep: char)
    requires |t| >= 1 && IsDigit(t[|t| - 1]) && Lacks(t, '\n')
    ensures ReadTime(t + "s", sep) == ReadTime(t, sep)
  {
    var ts := t + "s";
    assert Lacks("s", '\n');
    LacksConcat(t, "s", '\n');
    IndexOfAt(ts, '\n', |ts|);
    assert HasSecondsSuffix(ts);
    assert ts[..|ts| - 1] == t;
    assert !HasSecondsSuffix(t);
  }

  lemma ExampleMinutes(a: string)
    requires a == "01"
    ensures GroupMillis(a, '.') == Some(1000) && Lacks(a, ':')
  {
    WholeGroup("01", '.');
    assert Value("01") == 1;
  }

  lemma ExampleSeconds(b: string)
    requires b == "02" + ['.'] + "500"
    ensures GroupMillis(b, '.') == Some(2500) && Lacks(b, ':') && Unsuffixed(b)
  {
    JoinedFraction("02", '.', "500");
    assert Value("02") == 2 && Value("500") == 500;
    JoinedShape("02", '.', "500");
  }

  /** `01:02.500` reads as 62,500 milliseconds. */
  lemma ReadTimeExample(a: string, b: string)
    requires a == "01" && b == "02.500"
    ensures ReadTime(a + ":" + b, '.') == Some(62500)
  {
    ExampleMinutes(a);
    assert b == "02" + ['.'] + "500";
    ExampleSeconds(b);
    ReadTwoGroups(a + ":" + b, a, b, '.', 1000, 2500, 62500);
  }

  lemma PaddedExamples()
    ensures Pad(0, 2) == "00" && Pad(61, 2) == "61" && Pad(1, 2) == "01" && Pad(0, 3) == "000"
  {
    assert Digits(61) == Digits(6) + [DigitChar(1)];
  }

  lemma SpellExample(s: string, h: nat, m: nat, sec: nat, ms: nat)
    requires s == Pad(h, 2) + ":" + Pad(m, 2) + ":" + (Pad(sec, 2) + ['.'] + Pad(ms, 3))
    requires h == 0 && m == 61 && sec == 1 && ms == 0
    ensures s == "00:61:01.000"
  {
    PaddedExamples();
    assert "00" + ":" + "61" + ":" + ("01" + ['.'] + "000") == "00:61:01.000";
  }

  /** The higher groups are not true hours: 3,661,000 ms (1 h 1 min 1 s) is written
      `00:61:01.000` with two colons. */
  lemma FormatTwoColonsExample(milis: nat)
    requires milis == 3661000
    ensures FormatTime(milis, 2, '.') == "00:61:01.000"
  {
    FormatTwoColons(milis, '.');
    SpellExample(FormatTime(milis, 2, '.'), (milis / 60000 / 3600) % 216000, (milis / 60000) % 3600,
      (milis / 1000) % 60, milis % 1000);
  }
}
