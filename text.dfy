/**
 * String helpers standing in for the Python string methods the converter
 * relies on: `str.split`, `str.splitlines`, `str.endswith`,
 * `str.removesuffix`, decimal formatting with zero padding (`:02d`, `:03d`)
 * and decimal reading of ASCII digit runs.
 */
module Text {
  import opened Wrappers

  predicate IsDigit(c: char) { '0' <= c <= '9' }

  predicate AllDigits(s: string) { forall i | 0 <= i < |s| :: IsDigit(s[i]) }

  predicate NoDigits(s: string) { forall i | 0 <= i < |s| :: !IsDigit(s[i]) }

  predicate IsAlnum(c: char) { IsDigit(c) || 'a' <= c <= 'z' || 'A' <= c <= 'Z' }

  function DigitValue(c: char): (d: nat)
    requires IsDigit(c)
    ensures d < 10
  {
    c as int - '0' as int
  }

  function DigitChar(d: nat): (c: char)
    requires d < 10
    ensures IsDigit(c) && DigitValue(c) == d
  {
    ('0' as int + d) as char
  }

  /** The characters from `lo` up to `hi` are all decimal digits. */
  predicate DigitsIn(s: string, lo: nat, hi: nat)
    requires lo <= hi <= |s|
  {
    forall i | lo <= i < hi :: IsDigit(s[i])
  }

  /** The value of the digits from `lo` up to `hi`, read most significant first. */
  function RangeValue(s: string, lo: nat, hi: nat): nat
    requires lo <= hi <= |s| && DigitsIn(s, lo, hi)
    decreases hi - lo
  {
    if hi == lo then 0 else RangeValue(s, lo, hi - 1) * 10 + DigitValue(s[hi - 1])
  }

  /** The value of a run of decimal digits; "" reads as 0. */
  function Value(s: string): nat
    requires AllDigits(s)
  {
    RangeValue(s, 0, |s|)
  }

  /** The value of a range depends only on the characters in it, wherever they sit. */
  lemma {:induction false} RangeValueShift(s: string, t: string, lo: nat, hi: nat, d: int)
    requires lo <= hi <= |s| && 0 <= lo + d && hi + d <= |t|
    requires forall i | lo <= i < hi :: IsDigit(s[i]) && s[i] == t[i + d]
    ensures DigitsIn(t, lo + d, hi + d)
    ensures RangeValue(s, lo, hi) == RangeValue(t, lo + d, hi + d)
    decreases hi - lo
  {
    forall j | lo + d <= j < hi + d
      ensures IsDigit(t[j])
    {
      assert s[j - d] == t[j];
    }
    if lo < hi {
      RangeValueShift(s, t, lo, hi - 1, d);
      assert s[hi - 1] == t[hi - 1 + d];
    }
  }

  /** Appending text after a range does not change its value. */
  lemma RangeValueInPrefix(x: string, y: string, lo: nat, hi: nat)
    requires lo <= hi <= |x| && DigitsIn(x, lo, hi)
    ensures DigitsIn(x + y, lo, hi) && RangeValue(x + y, lo, hi) == RangeValue(x, lo, hi)
  {
    assert forall i | lo <= i < hi :: IsDigit(x[i]) && x[i] == (x + y)[i + 0];
    RangeValueShift(x, x + y, lo, hi, 0);
  }

  /** The digits after a prefix read as they do alone. */
  lemma RangeValueInSuffix(x: string, y: string)
    requires AllDigits(y)
    ensures DigitsIn(x + y, |x|, |x + y|) && RangeValue(x + y, |x|, |x + y|) == Value(y)
  {
    assert forall i | 0 <= i < |y| :: IsDigit(y[i]) && y[i] == (x + y)[i + |x|];
    RangeValueShift(y, x + y, 0, |y|, |x|);
  }

  /** Appending a digit multiplies the value by ten and adds the digit. */
  lemma ValueSnoc(s: string, c: char)
    requires AllDigits(s) && IsDigit(c)
    ensures AllDigits(s + [c])
    ensures Value(s + [c]) == Value(s) * 10 + DigitValue(c)
  {
    var t := s + [c];
    assert forall i | 0 <= i < |s| :: t[i] == s[i];
    RangeValueShift(s, t, 0, |s|, 0);
  }

  /** The shortest decimal spelling of `n` ("0" for zero). */
  function Digits(n: nat): string
  {
    if n < 10 then [DigitChar(n)] else Digits(n / 10) + [DigitChar(n % 10)]
  }

  /** The spelling reads back as `n`, and has one digit per power of ten below `n`. */
  lemma {:induction false} DigitsSpec(n: nat)
    ensures 1 <= |Digits(n)| && AllDigits(Digits(n))
    ensures Value(Digits(n)) == n
    ensures n < 10 ==> |Digits(n)| == 1
    ensures n < 100 ==> |Digits(n)| <= 2
    ensures n < 1000 ==> |Digits(n)| <= 3
  {
    if n < 10 {
      assert Value([DigitChar(n)]) == RangeValue([DigitChar(n)], 0, 0) * 10 + n;
    } else {
      DigitsSpec(n / 10);
      ValueSnoc(Digits(n / 10), DigitChar(n % 10));
    }
  }

  function Zeros(k: nat): (s: string)
    ensures |s| == k && AllDigits(s)
  {
    if k == 0 then "" else Zeros(k - 1) + "0"
  }

  lemma {:induction false} ZerosValue(k: nat)
    ensures Value(Zeros(k)) == 0
  {
    if k > 0 {
      ZerosValue(k - 1);
      ValueSnoc(Zeros(k - 1), '0');
    }
  }

  /** Leading zeros do not change the value of a digit run. */
  lemma {:induction false} ValueAfterZeros(k: nat, s: string)
    requires AllDigits(s)
    ensures AllDigits(Zeros(k) + s) && Value(Zeros(k) + s) == Value(s)
  {
    if s == [] {
      assert Zeros(k) + s == Zeros(k);
      ZerosValue(k);
    } else {
      var init, last := s[..|s| - 1], s[|s| - 1];
      assert s == init + [last];
      ValueAfterZeros(k, init);
      ValueSnoc(init, last);
      assert Zeros(k) + s == (Zeros(k) + init) + [last];
      ValueSnoc(Zeros(k) + init, last);
    }
  }

  /** `n` written in decimal and left-padded with zeros to at least `width` characters,
      as Python's `f'{n:0<width>d}'` does. */
  function Pad(n: nat, width: nat): string
  {
    var d := Digits(n);
    if |d| < width then Zeros(width - |d|) + d else d
  }

  /** The padded text reads back as `n`, and it is exactly `width` long when `n` fits. */
  lemma PadSpec(n: nat, width: nat)
    ensures AllDigits(Pad(n, width)) && Value(Pad(n, width)) == n
    ensures width <= |Pad(n, width)|
    ensures |Digits(n)| <= width ==> |Pad(n, width)| == width
  {
    var d := Digits(n);
    DigitsSpec(n);
    if |d| < width {
      ValueAfterZeros(width - |d|, d);
    }
  }

  /** The position of the first `c` in `s` at or after `from`, or `|s|` when there is none. */
  function IndexFrom(s: string, c: char, from: nat): (k: nat)
    requires from <= |s|
    ensures from <= k <= |s|
    decreases |s| - from
  {
    if from == |s| then from
    else if s[from] == c then from
    else IndexFrom(s, c, from + 1)
  }

  lemma {:induction false} IndexFromSpec(s: string, c: char, from: nat)
    requires from <= |s|
    ensures var k := IndexFrom(s, c, from);
      (k < |s| ==> s[k] == c) && forall i | from <= i < k :: s[i] != c
    decreases |s| - from
  {
    if from < |s| && s[from] != c {
      IndexFromSpec(s, c, from + 1);
    }
  }

  /** The position of the first `c` in `s`, or `|s|` when there is none. */
  function IndexOf(s: string, c: char): (k: nat)
    ensures k <= |s|
  {
    IndexFrom(s, c, 0)
  }

  /** `IndexOf` finds the first occurrence. */
  lemma IndexOfSpec(s: string, c: char)
    ensures var k := IndexOf(s, c);
      (k < |s| ==> s[k] == c) && forall i | 0 <= i < k :: s[i] != c
  {
    IndexFromSpec(s, c, 0);
  }

  /** When `s[k]` is the first `c`, `IndexOf` is `k`; when there is none, it is `|s|`. */
  lemma IndexOfAt(s: string, c: char, k: nat)
    requires k <= |s| && (k < |s| ==> s[k] == c) && forall i | 0 <= i < k :: s[i] != c
    ensures IndexOf(s, c) == k
  {
    IndexOfSpec(s, c);
  }

  /** `c` does not occur in `s`. */
  predicate Lacks(s: string, c: char)
  {
    forall i | 0 <= i < |s| :: s[i] != c
  }

  lemma LacksConcat(a: string, b: string, c: char)
    requires Lacks(a, c) && Lacks(b, c)
    ensures Lacks(a + b, c)
  {
    forall i | 0 <= i < |a + b|
      ensures (a + b)[i] != c
    {
      if i < |a| {
        assert (a + b)[i] == a[i];
      } else {
        assert (a + b)[i] == b[i - |a|];
      }
    }
  }

  /** A run of digits lacks every character that is not a digit. */
  lemma LacksInDigits(d: string, c: char)
    requires AllDigits(d) && !IsDigit(c)
    ensures Lacks(d, c)
  {
  }

  /** Python's `s.split(c)` for a one-character separator: never empty. */
  function Split(s: string, c: char): (r: seq<string>)
    ensures |r| >= 1
    decreases |s|
  {
    var k := IndexOf(s, c);
    if k == |s| then [s] else [s[..k]] + Split(s[k + 1..], c)
  }

  lemma SplitNone(s: string, c: char)
    requires Lacks(s, c)
    ensures Split(s, c) == [s]
  {
    IndexOfAt(s, c, |s|);
  }

  lemma SplitFirst(a: string, c: char, b: string)
    requires Lacks(a, c)
    ensures Split(a + [c] + b, c) == [a] + Split(b, c)
  {
    var s := a + [c] + b;
    assert s[|a|] == c;
    assert forall i | 0 <= i < |a| :: s[i] == a[i] != c;
    IndexOfAt(s, c, |a|);
    assert s[..|a|] == a && s[|a| + 1..] == b;
  }

  /** `sep` occurs in `s` starting at position `i`. */
  predicate OccursAt(s: string, sep: string, i: nat)
  {
    i + |sep| <= |s| && s[i..i + |sep|] == sep
  }

  /** The first position at or after `from` at which `sep` occurs in `s`. */
  function FindFrom(s: string, sep: string, from: nat): (r: Option<nat>)
    requires |sep| > 0
    ensures r.Some? ==> from <= r.value && OccursAt(s, sep, r.value)
    ensures r.Some? ==> forall i | from <= i < r.value :: !OccursAt(s, sep, i)
    ensures r.None? ==> forall i | from <= i :: !OccursAt(s, sep, i)
    decreases |s| - from
  {
    if |s| < from + |sep| then None
    else if OccursAt(s, sep, from) then Some(from)
    else FindFrom(s, sep, from + 1)
  }

  /** The first position at which `sep` occurs in `s`. */
  function Find(s: string, sep: string): (r: Option<nat>)
    requires |sep| > 0
    ensures r.Some? ==> OccursAt(s, sep, r.value)
    ensures r.Some? ==> forall i | 0 <= i < r.value :: !OccursAt(s, sep, i)
    ensures r.None? ==> forall i: nat :: !OccursAt(s, sep, i)
  {
    FindFrom(s, sep, 0)
  }

  /** Python's `s.split(sep)` for a separator of any non-zero length. */
  function SplitOn(s: string, sep: string): (r: seq<string>)
    requires |sep| > 0
    ensures |r| >= 1
    decreases |s|
  {
    match Find(s, sep)
    case None => [s]
    case Some(k) => [s[..k]] + SplitOn(s[k + |sep|..], sep)
  }

  function Concat(pieces: seq<string>): string
  {
    if pieces == [] then "" else pieces[0] + Concat(pieces[1..])
  }

  /** Python's `''.join(s.split(m))`: every non-overlapping occurrence of `m`, read from
      the left, removed. */
  function RemoveAll(s: string, m: string): string
    requires |m| > 0
  {
    Concat(SplitOn(s, m))
  }

  predicate IsLineBreak(c: char) { c == '\n' || c == '\r' }

  /** The position of the first line break in `s` at or after `from`, or `|s|`. */
  function LineEndFrom(s: string, from: nat): (k: nat)
    requires from <= |s|
    ensures from <= k <= |s|
    ensures k < |s| ==> IsLineBreak(s[k])
    ensures forall i | from <= i < k :: !IsLineBreak(s[i])
    decreases |s| - from
  {
    if from == |s| then from
    else if IsLineBreak(s[from]) then from
    else LineEndFrom(s, from + 1)
  }

  /** The position of the first line break in `s`, or `|s|`. */
  function LineEnd(s: string): (k: nat)
    ensures k <= |s|
    ensures k < |s| ==> IsLineBreak(s[k])
    ensures forall i | 0 <= i < k :: !IsLineBreak(s[i])
  {
    LineEndFrom(s, 0)
  }

  /** Python's `s.splitlines()` for the boundaries "\n", "\r" and "\r\n": a final line
      break does not open an empty last line, and "" has no lines. */
  function SplitLines(s: string): (r: seq<string>)
    ensures forall i | 0 <= i < |r| :: forall j | 0 <= j < |r[i]| :: !IsLineBreak(r[i][j])
    decreases |s|
  {
    if s == [] then []
    else
      var k := LineEnd(s);
      if k == |s| then [s]
      else
        var skip := if s[k] == '\r' && k + 1 < |s| && s[k + 1] == '\n' then 2 else 1;
        [s[..k]] + SplitLines(s[k + skip..])
  }

  /** Two lines without line breaks, joined by `\n`, split back into the two. */
  lemma SplitTwoLines(x: string, y: string)
    requires y != []
    requires forall i | 0 <= i < |x| :: !IsLineBreak(x[i])
    requires forall i | 0 <= i < |y| :: !IsLineBreak(y[i])
    ensures SplitLines(x + "\n" + y) == [x, y]
  {
    var s := x + "\n" + y;
    assert s[|x|] == '\n';
    assert forall i | 0 <= i < |x| :: s[i] == x[i];
    assert LineEnd(s) == |x|;
    assert s[..|x|] == x && s[|x| + 1..] == y;
    assert LineEnd(y) == |y|;
  }

  predicate StartsWith(s: string, prefix: string)
  {
    |prefix| <= |s| && s[..|prefix|] == prefix
  }

  /** The last `n` characters of `t` are the last `n` characters of `s` too. */
  predicate SameTail(s: string, t: string, n: nat)
    requires n <= |t| <= |s|
    decreases n
  {
    n == 0 || (s[|s| - |t| + n - 1] == t[n - 1] && SameTail(s, t, n - 1))
  }

  /** Python's `s.endswith(suffix)`, compared character by character. */
  predicate EndsWith(s: string, suffix: string)
  {
    |suffix| <= |s| && SameTail(s, suffix, |suffix|)
  }

  lemma {:induction false} SameTailSpec(s: string, t: string, n: nat)
    requires n <= |t| <= |s|
    ensures SameTail(s, t, n) <==> forall i | 0 <= i < n :: s[|s| - |t| + i] == t[i]
    decreases n
  {
    if n > 0 {
      SameTailSpec(s, t, n - 1);
    }
  }

  /** `EndsWith` is the slice comparison it stands for. */
  lemma EndsWithSlice(s: string, suffix: string)
    ensures EndsWith(s, suffix) <==> |suffix| <= |s| && s[|s| - |suffix|..] == suffix
  {
    if |suffix| <= |s| {
      SameTailSpec(s, suffix, |suffix|);
      var tail := s[|s| - |suffix|..];
      assert forall i | 0 <= i < |suffix| :: tail[i] == s[|s| - |suffix| + i];
    }
  }

  /** Python's `s.removesuffix(suffix)`. */
  function RemoveSuffix(s: string, suffix: string): (r: string)
    ensures |r| <= |s|
  {
    if EndsWith(s, suffix) then s[..|s| - |suffix|] else s
  }

  /** The suffix removed is the one the text ended with; nothing else goes. */
  lemma RemoveSuffixSpec(s: string, suffix: string)
    ensures EndsWith(s, suffix) ==> RemoveSuffix(s, suffix) + suffix == s
    ensures !EndsWith(s, suffix) ==> RemoveSuffix(s, suffix) == s
  {
    EndsWithSlice(s, suffix);
    if EndsWith(s, suffix) {
      assert s == s[..|s| - |suffix|] + s[|s| - |suffix|..];
    }
  }

  lemma EndsWithConcat(a: string, b: string)
    ensures EndsWith(a + b, b)
  {
    EndsWithSlice(a + b, b);
    assert (a + b)[|a + b| - |b|..] == b;
  }

  lemma StartsWithConcat(a: string, b: string)
    ensures StartsWith(a + b, a)
  {
    assert (a + b)[..|a|] == a;
  }

  lemma StartsWithTrans(a: string, b: string, c: string)
    requires StartsWith(a, b) && StartsWith(b, c)
    ensures StartsWith(a, c)
  {
    assert a[..|c|] == a[..|b|][..|c|];
  }

  lemma AppendKeepsPrefix(a: string, b: string, prefix: string)
    requires StartsWith(a, prefix)
    ensures StartsWith(a + b, prefix)
  {
    assert (a + b)[..|prefix|] == a[..|prefix|];
  }

  lemma EndsWithExtend(a: string, b: string, suffix: string)
    requires EndsWith(b, suffix)
    ensures EndsWith(a + b, suffix)
  {
    EndsWithSlice(b, suffix);
    EndsWithSlice(a + b, suffix);
    assert (a + b)[|a + b| - |suffix|..] == b[|b| - |suffix|..];
  }

  /** When `s[k]` is the first `c` at or after `from` (or there is none and `k == |s|`),
      `IndexFrom` is `k`. */
  lemma IndexFromAt(s: string, c: char, from: nat, k: nat)
    requires from <= k <= |s| && (k < |s| ==> s[k] == c) && forall i | from <= i < k :: s[i] != c
    ensures IndexFrom(s, c, from) == k
  {
    IndexFromSpec(s, c, from);
  }

  /** Splitting at a first occurrence of the separator that follows `a`. */
  lemma SplitOnFirst(s: string, sep: string, a: string, rest: string)
    requires |sep| > 0 && s == a + sep + rest
    requires forall i | 0 <= i < |a| :: !OccursAt(s, sep, i)
    ensures SplitOn(s, sep) == [a] + SplitOn(rest, sep)
  {
    assert s[|a|..|a| + |sep|] == sep;
    assert OccursAt(s, sep, |a|);
    var r := Find(s, sep);
    assert r.Some? && r.value >= |a|;
    assert r.value == |a|;
    assert s[..|a|] == a && s[|a| + |sep|..] == rest;
  }
}
