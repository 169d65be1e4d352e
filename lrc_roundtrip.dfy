/**
 * What the LRC writer of lrxy/converter/lrc.py puts down, read back by its reader:
 * the `vN:` agent after a line tag, the space that ends a word that is not glued to
 * the next, and the word run of the adjacency example. Two sections close the module:
 * a background line inside a background span, which the reader does not read back,
 * and the lines the reader adds to a document without checking them against its timing.
 */
module LrcRoundTrip {
  import opened Wrappers
  import opened Text
  import opened Lyrics
  import opened TimeCodec
  import opened LrcScan
  import opened LrcLine
  import opened LrcGenerate
  import opened LrcParse
  import SrtRoundTrip

  // ---------------------------------------------------------------------------
  // The written timestamp
  // ---------------------------------------------------------------------------

  /** `mm:ss.xxx` starts at position `i` of `s`. */
  predicate LrcShape(s: string, i: nat)
  {
    && i + 9 <= |s|
    && IsDigit(s[i]) && IsDigit(s[i + 1]) && s[i + 2] == ':'
    && IsDigit(s[i + 3]) && IsDigit(s[i + 4]) && s[i + 5] == '.'
    && IsDigit(s[i + 6]) && IsDigit(s[i + 7]) && IsDigit(s[i + 8])
  }

  /** Two two-digit groups and a three-digit group, put together as `mm:ss.xxx`. */
  lemma LrcPieces(s: string, a: string, b: string, c: string)
    requires |a| == 2 && |b| == 2 && |c| == 3 && AllDigits(a) && AllDigits(b) && AllDigits(c)
    requires s == a + ":" + (b + ['.'] + c)
    ensures |s| == 9 && LrcShape(s, 0)
  {
    assert s[0] == a[0] && s[1] == a[1] && s[3] == b[0] && s[4] == b[1];
    assert s[6] == c[0] && s[7] == c[1] && s[8] == c[2];
  }

  /** The padded groups of a time below 100 minutes put together. */
  lemma LrcShapeOf(s: string, mi: nat, sec: nat, ms: nat)
    requires s == Pad(mi, 2) + ":" + (Pad(sec, 2) + ['.'] + Pad(ms, 3))
    requires mi < 100 && sec < 100 && ms < 1000
    ensures |s| == 9 && LrcShape(s, 0)
  {
    SrtRoundTrip.PadTwo(mi);
    SrtRoundTrip.PadTwo(sec);
    SrtRoundTrip.PadThree(ms);
    LrcPieces(s, Pad(mi, 2), Pad(sec, 2), Pad(ms, 3));
  }

  /** `formatLrcTime(m)` of a time below 100 minutes is nine characters `mm:ss.xxx`. */
  lemma LrcTimeShape(m: nat)
    requires m < SrtRoundTrip.Limit
    ensures |FormatTime(m, 1, '.')| == 9 && LrcShape(FormatTime(m, 1, '.'), 0)
  {
    FormatOneColon(m, '.');
    SrtRoundTrip.SmallGroups(m);
    LrcShapeOf(FormatTime(m, 1, '.'), (m / 60000) % 3600, (m / 1000) % 60, m % 1000);
  }

  /** A written timestamp reads back as the time it was written from. */
  lemma LrcReadTime(m: nat)
    requires m < SrtRoundTrip.Limit
    ensures StampTime(FormatTime(m, 1, '.')) == Success(m)
  {
    RoundTripOneColon(m, '.');
  }

  /** The timestamp scanner takes exactly the nine characters of a written time. */
  lemma LrcStampAt(s: string, i: nat)
    requires LrcShape(s, i) && (i + 9 < |s| ==> !IsDigit(s[i + 9]))
    ensures StampEnd(s, i) == Some(i + 9)
  {
    assert ColonGroupsEnd(s, i + 5) == i + 5;
    assert ColonGroupsEnd(s, i + 2) == i + 5;
    DigitRunEndAt(s, i + 6, i + 9);
  }

  // ---------------------------------------------------------------------------
  // The agent
  // ---------------------------------------------------------------------------

  /** An agent the line pattern can read: `v` and at least one digit. */
  predicate AgentName(a: string)
  {
    |a| >= 2 && a[0] == 'v' && AllDigits(a[1..])
  }

  /** A line that starts with a written `[mm:ss.xxx]` has its tag closed at position 10. */
  lemma LineTagRead(l: string, f: string, after: string)
    requires |f| == 9 && LrcShape(f, 0) && l == "[" + f + "]" + after
    ensures LineTagClose(l) == Some(10) && l[1..10] == f && l[11..] == after
  {
    assert forall j | 0 <= j < 9 :: l[1 + j] == f[j];
    assert l[0] == '[' && l[10] == ']';
    LrcStampAt(l, 1);
    assert l[1..10] == f;
    assert l[11..] == after;
  }

  /** An agent name and its `:` at position 11 are read as the agent. */
  lemma AgentRead(l: string, a: string, rest: string)
    requires AgentName(a) && |l| >= 11 && l[11..] == a + ":" + rest
    ensures AgentClose(l, 11) == Some(11 + |a|) && l[11..11 + |a|] == a && l[12 + |a|..] == rest
  {
    var t := l[11..];
    assert forall j | 0 <= j < |a| :: l[11 + j] == t[j] == a[j];
    assert l[11 + |a|] == t[|a|] == ':';
    forall j | 12 <= j < 11 + |a| ensures IsDigit(l[j]) {
      assert l[j] == a[j - 11] == a[1..][j - 12];
    }
    DigitRunEndAt(l, 12, 11 + |a|);
    assert l[11..11 + |a|] == t[..|a|] == a;
    assert l[12 + |a|..] == t[|a| + 1..] == rest;
  }

  /** The line pattern reads a written head `[mm:ss.xxx]vN:` back. */
  lemma HeadRead(l: string, f: string, a: string, rest: string)
    requires |f| == 9 && LrcShape(f, 0) && AgentName(a)
    requires l == "[" + f + "]" + (a + ":" + rest)
    ensures MatchLine(l) == Tagged(f, Some(a), RestFrom(l, 12 + |a|)) && l[12 + |a|..] == rest
  {
    LineTagRead(l, f, a + ":" + rest);
    AgentRead(l, a, rest);
  }

  /** A foreground line opens with `[begin]` and, when it has an agent, `agent:` after it:
      the line pattern reads the begin and that agent back from the written head and
      hands on the rest of the line, one leading space dropped. */
  lemma AgentReadBack(line: Line, a: string, rest: string)
    requires !IsBackground(line.background) && line.begin.Some? && line.begin.value < SrtRoundTrip.Limit
    requires line.agent == Some(a) && AgentName(a)
    ensures Opening("", line) == Success("[" + FormatTime(line.begin.value, 1, '.') + "]" + a + ":")
    ensures MatchLine(Opening("", line).value + rest)
      == Tagged(FormatTime(line.begin.value, 1, '.'), Some(a), if rest != [] && rest[0] == ' ' then rest[1..] else rest)
  {
    var f := FormatTime(line.begin.value, 1, '.');
    LrcTimeShape(line.begin.value);
    OpeningWithAgent(line, a, f);
    var l := "[" + f + "]" + a + ":" + rest;
    AppendTwice("[" + f + "]", a + ":", rest);
    AppendTwice("[" + f + "]", a, ":");
    HeadRead(l, f, a, rest);
    RestFromAt(l, 12 + |a|, rest);
  }

  /** The opening of a foreground line with an agent, at the start of the output. */
  lemma OpeningWithAgent(line: Line, a: string, f: string)
    requires !IsBackground(line.background) && line.begin.Some? && line.agent == Some(a) && |a| > 0
    requires f == FormatTime(line.begin.value, 1, '.')
    ensures Opening("", line) == Success("[" + f + "]" + a + ":")
  {
    assert "" + "[" == "[";
  }

  /** The rest of a line after position `pos`, one leading space dropped. */
  lemma RestFromAt(l: string, pos: nat, rest: string)
    requires pos <= |l| && l[pos..] == rest
    ensures RestFrom(l, pos) == if rest != [] && rest[0] == ' ' then rest[1..] else rest
  {
    if pos < |l| {
      assert l[pos] == rest[0];
      assert l[pos + 1..] == rest[1..];
    }
  }

  // ---------------------------------------------------------------------------
  // The space after a word
  // ---------------------------------------------------------------------------

  /** The text after a word tag, read back: a trailing space makes the word not glued
      to the next and is dropped; without one the word is glued. */
  lemma NewWordSpace(t: nat, text: string)
    requires !EndsWith(text, " ")
    ensures NewWord(t, text + " ") == Word(Some(t), None, false, text)
    ensures NewWord(t, text) == Word(Some(t), None, true, text)
  {
    EndsWithConcat(text, " ");
    RemoveSuffixSpec(text + " ", " ");
    RemoveSuffixSpec(text, " ");
    assert (text + " ")[..|text|] == text;
  }

  /** A word is written as its begin tag (left out when the output already ends with
      it), its text, one space exactly when the word is not glued to the next and is
      not equal to the line's last word, and its end tag. Read back, the space makes
      the word not glued again, so a word keeps its flag unless it is a word not glued
      to the next that equals the last word. */
  lemma WordSpacing(out: string, ws: seq<Word>, k: nat, t: nat)
    requires k < |ws| && WordOut(out, ws, k).Success? && !EndsWith(ws[k].text, " ")
    ensures var b := AngleTag(Stamp(ws[k].begin).value);
      var e := AngleTag(Stamp(ws[k].end).value);
      var sp := if !ws[k].part && ws[k] != ws[|ws| - 1] then " " else "";
      && WordOut(out, ws, k).value == (if EndsWith(out, b) then out else out + b) + ws[k].text + sp + e
      && NewWord(t, ws[k].text + sp) == Word(Some(t), None, sp == "", ws[k].text)
      && (NewWord(t, ws[k].text + sp).part == ws[k].part <==> ws[k].part || ws[k] != ws[|ws| - 1])
  {
    var b := AngleTag(Stamp(ws[k].begin).value);
    var e := AngleTag(Stamp(ws[k].end).value);
    var head := if EndsWith(out, b) then out else out + b;
    if Spaced(ws, k) {
      assert WordOut(out, ws, k).value == head + ws[k].text + " " + e;
    } else {
      assert WordOut(out, ws, k).value == head + ws[k].text + e;
      assert head + ws[k].text + "" + e == head + ws[k].text + e;
      assert ws[k].text + "" == ws[k].text;
    }
    NewWordSpace(t, ws[k].text);
  }

  // ---------------------------------------------------------------------------
  // Word tags read back
  // ---------------------------------------------------------------------------

  /** Word tags written out one after the other: `<stamp>text` each. */
  function Spelled(tags: seq<Tag>): string
  {
    if tags == [] then "" else AngleTag(tags[0].stamp) + tags[0].text + Spelled(tags[1..])
  }

  /** Tags the writer can produce: written times and texts without a `<`. */
  predicate Writable(tags: seq<Tag>)
  {
    forall k | 0 <= k < |tags| :: |tags[k].stamp| == 9 && LrcShape(tags[k].stamp, 0) && Lacks(tags[k].text, '<')
  }

  /** A written tag `<mm:ss.xxx>` at position `i` closes at position `i + 10`. */
  lemma TagOpenAt(s: string, i: nat, f: string)
    requires |f| == 9 && LrcShape(f, 0) && i + 11 <= |s| && s[i..i + 11] == AngleTag(f)
    ensures TagCloseAt(s, i) == Some(i + 10) && s[i + 1..i + 10] == f
  {
    var w := s[i..i + 11];
    assert forall j | 0 <= j < 9 :: s[i + 1 + j] == w[1 + j] == f[j];
    assert s[i] == w[0] == '<' && s[i + 10] == w[10] == '>';
    LrcStampAt(s, i + 1);
    assert s[i + 1..i + 10] == w[1..10];
  }

  /** A text without `<` runs up to the next `<` or the end. */
  lemma TextUntilOpen(s: string, i: nat, text: string, after: string)
    requires i <= |s| && s[i..] == text + after && Lacks(text, '<') && (after == [] || after[0] == '<')
    ensures IndexFrom(s, '<', i) == i + |text| && s[i..i + |text|] == text
  {
    var w := s[i..];
    assert forall j | i <= j < i + |text| :: s[j] == w[j - i] == text[j - i];
    assert i + |text| < |s| ==> s[i + |text|] == w[|text|] == after[0];
    IndexFromAt(s, '<', i, i + |text|);
    assert s[i..i + |text|] == w[..|text|];
  }

  /** The scan takes the tag that closes at `e` and goes on at the next `<`. */
  lemma {:induction false} WordScanAt(s: string, i: nat, e: nat, t: nat, tag: Tag)
    requires i < |s| && TagCloseAt(s, i) == Some(e) && IndexFrom(s, '<', e + 1) == t
    requires tag == Tag(s[i + 1..e], s[e + 1..t])
    ensures WordScan(s, i) == [tag] + WordScan(s, t)
  {
  }

  lemma SplitAt(s: string, i: nat, x: string, y: string)
    requires i <= |s| && s[i..] == x + y
    ensures s[i..i + |x|] == x && s[i + |x|..] == y
  {
    var w := s[i..];
    assert s[i..i + |x|] == w[..|x|];
    assert s[i + |x|..] == w[|x|..];
  }

  /** Where the tag, its stamp and its text lie in the scanned text. */
  lemma ScanPieces(s: string, i: nat, tag: Tag, after: string)
    requires |tag.stamp| == 9 && LrcShape(tag.stamp, 0) && Lacks(tag.text, '<')
    requires i <= |s| && s[i..] == AngleTag(tag.stamp) + (tag.text + after)
    requires after == [] || after[0] == '<'
    ensures i < |s| && TagCloseAt(s, i) == Some(i + 10)
    ensures var t := i + 11 + |tag.text|;
      t <= |s| && IndexFrom(s, '<', i + 11) == t && Tag(s[i + 1..i + 10], s[i + 11..t]) == tag
  {
    SplitAt(s, i, AngleTag(tag.stamp), tag.text + after);
    TagOpenAt(s, i, tag.stamp);
    TextUntilOpen(s, i + 11, tag.text, after);
  }

  /** One written word tag at position `i` is read as that tag, and the scan goes on
      where the next `<` is. */
  lemma ScanOneTag(s: string, i: nat, tag: Tag, after: string, j: nat)
    requires |tag.stamp| == 9 && LrcShape(tag.stamp, 0) && Lacks(tag.text, '<')
    requires i <= |s| && s[i..] == AngleTag(tag.stamp) + (tag.text + after)
    requires after == [] || after[0] == '<'
    requires j == i + 11 + |tag.text|
    ensures j <= |s| && WordScan(s, i) == [tag] + WordScan(s, j)
  {
    ScanPieces(s, i, tag, after);
    WordScanAt(s, i, i + 10, j, tag);
  }

  /** A run of tags spelled out: the first tag, its text, then the others, starting
      with the `<` of the first tag. */
  lemma SpelledCons(tags: seq<Tag>)
    requires tags != []
    ensures Spelled(tags) == AngleTag(tags[0].stamp) + (tags[0].text + Spelled(tags[1..]))
    ensures Spelled(tags)[0] == '<'
  {
  }

  /** The text before a run of tags and its first tag, the rest of the run after them. */
  lemma SpelledSplit(pre: string, tags: seq<Tag>)
    requires tags != [] && |tags[0].stamp| == 9
    ensures var pre' := pre + AngleTag(tags[0].stamp) + tags[0].text;
      var rest := Spelled(tags[1..]);
      && |pre'| == |pre| + 11 + |tags[0].text|
      && pre + Spelled(tags) == pre' + rest
      && (pre + Spelled(tags))[|pre|..] == AngleTag(tags[0].stamp) + (tags[0].text + rest)
      && (rest == [] || rest[0] == '<')
  {
    SpelledCons(tags);
    if tags[1..] != [] { SpelledCons(tags[1..]); }
    var s := pre + Spelled(tags);
    assert s[|pre|..] == Spelled(tags);
  }

  /** The tags after the first of a writable run are writable. */
  lemma WritableTail(tags: seq<Tag>)
    requires tags != [] && Writable(tags)
    ensures Writable(tags[1..])
  {
    var more := tags[1..];
    forall k | 0 <= k < |more| ensures |more[k].stamp| == 9 && LrcShape(more[k].stamp, 0) && Lacks(more[k].text, '<') {
      assert more[k] == tags[k + 1];
    }
  }

  /** A run of written word tags scans back into exactly those tags. */
  lemma {:induction false} ScanSpelled(pre: string, tags: seq<Tag>)
    requires Writable(tags)
    ensures WordScan(pre + Spelled(tags), |pre|) == tags
    decreases |tags|
  {
    if tags == [] {
      assert pre + Spelled(tags) == pre;
    } else {
      var tag := tags[0];
      assert |tag.stamp| == 9 && LrcShape(tag.stamp, 0) && Lacks(tag.text, '<');
      var pre' := pre + AngleTag(tag.stamp) + tag.text;
      SpelledSplit(pre, tags);
      ScanOneTag(pre + Spelled(tags), |pre|, tag, Spelled(tags[1..]), |pre'|);
      WritableTail(tags);
      ScanSpelled(pre', tags[1..]);
      assert tags == [tag] + tags[1..];
    }
  }

  // ---------------------------------------------------------------------------
  // The adjacency example: `<t0>Hel<t1>lo<t2> <t3>world<t4>`
  // ---------------------------------------------------------------------------

  /** Five times that can be written and read back. */
  predicate RunTimes(ts: seq<nat>)
  {
    |ts| == 5 && forall k | 0 <= k < 5 :: ts[k] < SrtRoundTrip.Limit
  }

  /** The stamps written for five times. */
  function Written(ts: seq<nat>): seq<string>
    requires |ts| == 5
  {
    seq(5, k requires 0 <= k < 5 => FormatTime(ts[k], 1, '.'))
  }

  /** Five stamps of the written shape `mm:ss.xxx`. */
  predicate Shaped(fs: seq<string>)
  {
    |fs| == 5 && forall k | 0 <= k < 5 :: |fs[k]| == 9 && LrcShape(fs[k], 0)
  }

  /** The stamps `fs` read as the times `ts`. */
  predicate ReadAs(fs: seq<string>, ts: seq<nat>)
  {
    |fs| == 5 && |ts| == 5 && forall k | 0 <= k < 5 :: StampTime(fs[k]) == Success(ts[k])
  }

  /** The times `ts` are written as the stamps `fs`. */
  predicate WrittenAs(fs: seq<string>, ts: seq<nat>)
  {
    |fs| == 5 && |ts| == 5 && forall k | 0 <= k < 5 :: Stamp(Some(ts[k])) == Success(fs[k])
  }

  lemma WrittenStamp(t: nat, f: string)
    requires t < SrtRoundTrip.Limit && f == FormatTime(t, 1, '.')
    ensures |f| == 9 && LrcShape(f, 0) && StampTime(f) == Success(t) && Stamp(Some(t)) == Success(f)
  {
    LrcTimeShape(t);
    LrcReadTime(t);
  }

  /** Times below 100 minutes are written as stamps of the written shape that read back
      as them. */
  lemma WrittenStamps(ts: seq<nat>)
    requires RunTimes(ts)
    ensures Shaped(Written(ts)) && ReadAs(Written(ts), ts) && WrittenAs(Written(ts), ts)
  {
    var fs := Written(ts);
    forall k | 0 <= k < 5
      ensures |fs[k]| == 9 && LrcShape(fs[k], 0) && StampTime(fs[k]) == Success(ts[k]) && Stamp(Some(ts[k])) == Success(fs[k])
    {
      WrittenStamp(ts[k], fs[k]);
    }
  }

  /** A word text the example can hold: not empty, no `<`, no trailing space. */
  predicate PlainText(text: string)
  {
    text != "" && Lacks(text, '<') && !EndsWith(text, " ")
  }

  /** The run `<f0>a<f1>b<f2> <f3>d<f4>`: two words glued together, a space, a word. */
  function Run(fs: seq<string>, a: string, b: string, d: string): string
    requires |fs| == 5
  {
    AngleTag(fs[0]) + a + AngleTag(fs[1]) + b + AngleTag(fs[2]) + " " + AngleTag(fs[3]) + d + AngleTag(fs[4])
  }

  /** The word tags of the run. */
  function RunTags(fs: seq<string>, a: string, b: string, d: string): seq<Tag>
    requires |fs| == 5
  {
    [Tag(fs[0], a), Tag(fs[1], b), Tag(fs[2], " "), Tag(fs[3], d), Tag(fs[4], "")]
  }

  /** The words of the run: `a` and `b` glued to what follows, an empty word that is
      not (the tag whose text is one space), then `d`. */
  function RunWords(ts: seq<nat>, a: string, b: string, d: string): seq<Word>
    requires |ts| == 5
  {
    [Word(Some(ts[0]), Some(ts[1]), true, a), Word(Some(ts[1]), Some(ts[2]), true, b),
     Word(Some(ts[2]), Some(ts[3]), false, ""), Word(Some(ts[3]), Some(ts[4]), true, d)]
  }

  // The run scanned

  /** Spelling one more tag adds it at the end. */
  lemma {:induction false} SpelledSnoc(tags: seq<Tag>, t: Tag)
    ensures Spelled(tags + [t]) == Spelled(tags) + AngleTag(t.stamp) + t.text
    decreases |tags|
  {
    if tags == [] {
      assert [] + [t] == [t];
      assert Spelled([t][1..]) == "" by { assert [t][1..] == []; }
    } else {
      assert (tags + [t])[1..] == tags[1..] + [t];
      SpelledSnoc(tags[1..], t);
    }
  }

  /** The run is its five tags spelled out. */
  lemma RunSpelled(fs: seq<string>, a: string, b: string, d: string)
    requires |fs| == 5
    ensures Spelled(RunTags(fs, a, b, d)) == Run(fs, a, b, d)
  {
    var tags := RunTags(fs, a, b, d);
    var s0 := AngleTag(fs[0]) + a;
    var s1 := s0 + AngleTag(fs[1]) + b;
    var s2 := s1 + AngleTag(fs[2]) + " ";
    var s3 := s2 + AngleTag(fs[3]) + d;
    var s4 := s3 + AngleTag(fs[4]) + "";
    assert Spelled([tags[0]]) == s0 by {
      SpelledSnoc([], tags[0]);
      assert [] + [tags[0]] == [tags[0]];
      assert "" + AngleTag(fs[0]) + a == s0;
    }
    assert Spelled([tags[0], tags[1]]) == s1 by {
      SpelledSnoc([tags[0]], tags[1]);
      assert [tags[0]] + [tags[1]] == [tags[0], tags[1]];
    }
    assert Spelled([tags[0], tags[1], tags[2]]) == s2 by {
      SpelledSnoc([tags[0], tags[1]], tags[2]);
      assert [tags[0], tags[1]] + [tags[2]] == [tags[0], tags[1], tags[2]];
    }
    assert Spelled([tags[0], tags[1], tags[2], tags[3]]) == s3 by {
      SpelledSnoc([tags[0], tags[1], tags[2]], tags[3]);
      assert [tags[0], tags[1], tags[2]] + [tags[3]] == [tags[0], tags[1], tags[2], tags[3]];
    }
    assert Spelled(tags) == s4 by {
      SpelledSnoc([tags[0], tags[1], tags[2], tags[3]], tags[4]);
      assert [tags[0], tags[1], tags[2], tags[3]] + [tags[4]] == tags;
    }
    assert s4 == s3 + AngleTag(fs[4]);
  }

  lemma WritableFive(tags: seq<Tag>)
    requires |tags| == 5
    requires |tags[0].stamp| == 9 && LrcShape(tags[0].stamp, 0) && Lacks(tags[0].text, '<')
    requires |tags[1].stamp| == 9 && LrcShape(tags[1].stamp, 0) && Lacks(tags[1].text, '<')
    requires |tags[2].stamp| == 9 && LrcShape(tags[2].stamp, 0) && Lacks(tags[2].text, '<')
    requires |tags[3].stamp| == 9 && LrcShape(tags[3].stamp, 0) && Lacks(tags[3].text, '<')
    requires |tags[4].stamp| == 9 && LrcShape(tags[4].stamp, 0) && Lacks(tags[4].text, '<')
    ensures Writable(tags)
  {
  }

  /** The run scans back into its five tags. */
  lemma RunScan(fs: seq<string>, a: string, b: string, d: string)
    requires Shaped(fs) && PlainText(a) && PlainText(b) && PlainText(d)
    ensures WordTags(Run(fs, a, b, d)) == RunTags(fs, a, b, d)
  {
    var tags := RunTags(fs, a, b, d);
    assert Writable(tags) by {
      assert Lacks(" ", '<') && Lacks("", '<');
      WritableFive(tags);
    }
    ScanSpelled("", tags);
    assert "" + Spelled(tags) == Spelled(tags);
    RunSpelled(fs, a, b, d);
  }

  // The run read

  /** One iteration of the word loop on a stamp that reads as `t`. */
  lemma WordsOneStep(tags: seq<Tag>, k: nat, st: WordState, t: nat)
    requires k < |tags| && StampTime(tags[k].stamp) == Success(t)
    ensures WordsFrom(tags, k, st) == WordsFrom(tags, k + 1, TagStep(st, t, tags[k].text))
  {
    WordsStep(tags, k, st);
  }

  /** The first tag with text starts the first word, and the line's begin unless one
      was given. */
  lemma FirstStep(begin: Option<nat>, t: nat, text: string, w: Word)
    requires text != "" && NewWord(t, text) == w
    ensures TagStep(WordState(begin, [], 0), t, text)
      == WordState(if Falsy(begin) then Some(t) else begin, [w], t)
  {
  }

  /** A tag with text after a word whose end is unset: that word ends at the tag's time
      and the tag's word follows it. */
  lemma NextStep(b: Option<nat>, done: seq<Word>, last: Word, t0: nat, t: nat, text: string, w: Word)
    requires last.end == None && text != "" && NewWord(t, text) == w
    ensures TagStep(WordState(b, done + [last], t0), t, text)
      == WordState(b, done + [last.(end := Some(t))] + [w], t)
  {
    var ws := done + [last];
    assert ws[|ws| - 1 := last.(end := Some(t))] == done + [last.(end := Some(t))];
  }

  /** A tag without text ends the word before it and adds none. */
  lemma ClosingStep(b: Option<nat>, done: seq<Word>, last: Word, t0: nat, t: nat)
    requires last.end == None
    ensures TagStep(WordState(b, done + [last], t0), t, "")
      == WordState(b, done + [last.(end := Some(t))], t)
  {
    var ws := done + [last];
    assert ws[|ws| - 1 := last.(end := Some(t))] == done + [last.(end := Some(t))];
  }

  lemma FourWords(ws: seq<Word>)
    requires |ws| == 4
    ensures [ws[0]] + [ws[1]] + [ws[2]] + [ws[3]] == ws
  {
  }

  /** The states the word loop passes through on the run. */
  function RunStates(ts: seq<nat>, a: string, b: string, d: string, begin: Option<nat>): seq<WordState>
    requires |ts| == 5
  {
    var bg := if Falsy(begin) then Some(ts[0]) else begin;
    var ws := RunWords(ts, a, b, d);
    [WordState(begin, [], 0),
     WordState(bg, [ws[0].(end := None)], ts[0]),
     WordState(bg, [ws[0]] + [ws[1].(end := None)], ts[1]),
     WordState(bg, [ws[0]] + [ws[1]] + [ws[2].(end := None)], ts[2]),
     WordState(bg, [ws[0]] + [ws[1]] + [ws[2]] + [ws[3].(end := None)], ts[3]),
     WordState(bg, ws, ts[4])]
  }

  /** Each tag of the run ends the word before it and starts its own, but for the last
      tag, which has no text. */
  lemma RunSteps(ts: seq<nat>, a: string, b: string, d: string, begin: Option<nat>)
    requires |ts| == 5 && PlainText(a) && PlainText(b) && PlainText(d)
    ensures var sts := RunStates(ts, a, b, d, begin);
      && TagStep(sts[0], ts[0], a) == sts[1]
      && TagStep(sts[1], ts[1], b) == sts[2]
      && TagStep(sts[2], ts[2], " ") == sts[3]
      && TagStep(sts[3], ts[3], d) == sts[4]
      && TagStep(sts[4], ts[4], "") == sts[5]
  {
    FirstRunStep(ts, a, b, d, begin);
    SecondRunStep(ts, a, b, d, begin);
    SpaceRunStep(ts, a, b, d, begin);
    LastWordRunStep(ts, a, b, d, begin);
    ClosingRunStep(ts, a, b, d, begin);
  }

  /** The first tag starts the first word. */
  lemma FirstRunStep(ts: seq<nat>, a: string, b: string, d: string, begin: Option<nat>)
    requires |ts| == 5 && PlainText(a)
    ensures var sts := RunStates(ts, a, b, d, begin);
      TagStep(sts[0], ts[0], a) == sts[1]
  {
    var ws := RunWords(ts, a, b, d);
    NewWordSpace(ts[0], a);
    FirstStep(begin, ts[0], a, ws[0].(end := None));
  }

  /** The second tag ends the first word and starts the second. */
  lemma SecondRunStep(ts: seq<nat>, a: string, b: string, d: string, begin: Option<nat>)
    requires |ts| == 5 && PlainText(b)
    ensures var sts := RunStates(ts, a, b, d, begin);
      TagStep(sts[1], ts[1], b) == sts[2]
  {
    var ws, sts := RunWords(ts, a, b, d), RunStates(ts, a, b, d, begin);
    var bg := if Falsy(begin) then Some(ts[0]) else begin;
    NewWordSpace(ts[1], b);
    assert sts[1].words == [] + [ws[0].(end := None)];
    NextStep(bg, [], ws[0].(end := None), ts[0], ts[1], b, ws[1].(end := None));
    assert [] + [ws[0]] == [ws[0]];
  }

  /** The tag whose text is one space ends the second word and starts an empty one. */
  lemma SpaceRunStep(ts: seq<nat>, a: string, b: string, d: string, begin: Option<nat>)
    requires |ts| == 5
    ensures var sts := RunStates(ts, a, b, d, begin);
      TagStep(sts[2], ts[2], " ") == sts[3]
  {
    var ws := RunWords(ts, a, b, d);
    var bg := if Falsy(begin) then Some(ts[0]) else begin;
    NewWordSpace(ts[2], "");
    assert "" + " " == " ";
    NextStep(bg, [ws[0]], ws[1].(end := None), ts[1], ts[2], " ", ws[2].(end := None));
  }

  /** The fourth tag ends the empty word and starts the last. */
  lemma LastWordRunStep(ts: seq<nat>, a: string, b: string, d: string, begin: Option<nat>)
    requires |ts| == 5 && PlainText(d)
    ensures var sts := RunStates(ts, a, b, d, begin);
      TagStep(sts[3], ts[3], d) == sts[4]
  {
    var ws := RunWords(ts, a, b, d);
    var bg := if Falsy(begin) then Some(ts[0]) else begin;
    NewWordSpace(ts[3], d);
    NextStep(bg, [ws[0]] + [ws[1]], ws[2].(end := None), ts[2], ts[3], d, ws[3].(end := None));
  }

  /** The last tag, without text, ends the last word. */
  lemma ClosingRunStep(ts: seq<nat>, a: string, b: string, d: string, begin: Option<nat>)
    requires |ts| == 5
    ensures var sts := RunStates(ts, a, b, d, begin);
      TagStep(sts[4], ts[4], "") == sts[5]
  {
    var ws := RunWords(ts, a, b, d);
    var bg := if Falsy(begin) then Some(ts[0]) else begin;
    ClosingStep(bg, [ws[0]] + [ws[1]] + [ws[2]], ws[3].(end := None), ts[3], ts[4]);
    FourWords(ws);
  }

  /** The word loop over the run yields its four words and the time of its last tag;
      the begin is the first tag's time unless one was given. */
  lemma RunRead(fs: seq<string>, ts: seq<nat>, a: string, b: string, d: string, begin: Option<nat>)
    requires ReadAs(fs, ts) && PlainText(a) && PlainText(b) && PlainText(d)
    ensures WordsFrom(RunTags(fs, a, b, d), 0, WordState(begin, [], 0))
      == Success(WordState(if Falsy(begin) then Some(ts[0]) else begin, RunWords(ts, a, b, d), ts[4]))
  {
    var tags, sts := RunTags(fs, a, b, d), RunStates(ts, a, b, d, begin);
    RunSteps(ts, a, b, d, begin);
    WordsOneStep(tags, 0, sts[0], ts[0]);
    WordsOneStep(tags, 1, sts[1], ts[1]);
    WordsOneStep(tags, 2, sts[2], ts[2]);
    WordsOneStep(tags, 3, sts[3], ts[3]);
    WordsOneStep(tags, 4, sts[4], ts[4]);
    assert WordsFrom(tags, 5, sts[5]) == Success(sts[5]);
  }

  // The run written back

  /** One word written, its two stamps given. */
  lemma WordOutAt(out: string, ws: seq<Word>, k: nat, f: string, g: string)
    requires k < |ws| && Stamp(ws[k].begin) == Success(f) && Stamp(ws[k].end) == Success(g)
    ensures WordOut(out, ws, k)
      == Success((if EndsWith(out, AngleTag(f)) then out else out + AngleTag(f)) + ws[k].text
                 + (if Spaced(ws, k) then " " else "") + AngleTag(g))
  {
    var head := if EndsWith(out, AngleTag(f)) then out else out + AngleTag(f);
    assert head + ws[k].text + "" == head + ws[k].text;
  }

  /** The next word's begin tag is the one just written, so it is not repeated. */
  lemma WordOutAfter(prev: string, ws: seq<Word>, k: nat, f: string, g: string)
    requires k < |ws| && Stamp(ws[k].begin) == Success(f) && Stamp(ws[k].end) == Success(g)
    ensures WordOut(prev + AngleTag(f), ws, k)
      == Success(prev + AngleTag(f) + ws[k].text + (if Spaced(ws, k) then " " else "") + AngleTag(g))
  {
    EndsWithConcat(prev, AngleTag(f));
    WordOutAt(prev + AngleTag(f), ws, k, f, g);
  }

  /** The four words of the run write the run back, the first begin tag included. */
  lemma RunWritten(out: string, fs: seq<string>, ts: seq<nat>, a: string, b: string, d: string)
    requires WrittenAs(fs, ts) && PlainText(a) && PlainText(b) && PlainText(d)
    requires !EndsWith(out, AngleTag(fs[0]))
    ensures WordsOut(out, RunWords(ts, a, b, d), 0) == Success(out + Run(fs, a, b, d))
  {
    var ws := RunWords(ts, a, b, d);
    var p0 := out + AngleTag(fs[0]) + a;
    var p1 := p0 + AngleTag(fs[1]) + b;
    var p2 := p1 + AngleTag(fs[2]) + " ";
    var p3 := p2 + AngleTag(fs[3]) + d;
    var o4 := p3 + AngleTag(fs[4]);
    assert Stamp(ws[0].begin) == Success(fs[0]) && Stamp(ws[0].end) == Success(fs[1]);
    assert Stamp(ws[1].end) == Success(fs[2]) && Stamp(ws[2].end) == Success(fs[3]);
    assert Stamp(ws[3].end) == Success(fs[4]);
    assert !Spaced(ws, 0) && !Spaced(ws, 1) && !Spaced(ws, 3);
    assert Spaced(ws, 2) by { assert ws[2].text != ws[3].text; }
    assert WordOut(out, ws, 0) == Success(p0 + AngleTag(fs[1])) by {
      WordOutAt(out, ws, 0, fs[0], fs[1]);
      assert out + AngleTag(fs[0]) + a + "" == p0;
    }
    assert WordOut(p0 + AngleTag(fs[1]), ws, 1) == Success(p1 + AngleTag(fs[2])) by {
      WordOutAfter(p0, ws, 1, fs[1], fs[2]);
      assert p0 + AngleTag(fs[1]) + b + "" == p1;
    }
    assert WordOut(p1 + AngleTag(fs[2]), ws, 2) == Success(p2 + AngleTag(fs[3])) by {
      WordOutAfter(p1, ws, 2, fs[2], fs[3]);
      assert p1 + AngleTag(fs[2]) + "" + " " == p2;
    }
    assert WordOut(p2 + AngleTag(fs[3]), ws, 3) == Success(o4) by {
      WordOutAfter(p2, ws, 3, fs[3], fs[4]);
      assert p2 + AngleTag(fs[3]) + d + "" == p3;
    }
    assert WordsOut(o4, ws, 4) == Success(o4);
    assert WordsOut(p2 + AngleTag(fs[3]), ws, 3) == Success(o4);
    assert WordsOut(p1 + AngleTag(fs[2]), ws, 2) == Success(o4);
    assert WordsOut(p0 + AngleTag(fs[1]), ws, 1) == Success(o4);
    RunAfter(out, fs, a, b, d);
  }

  /** Appending `x + y` is appending `x`, then `y`. */
  lemma AppendTwice(out: string, x: string, y: string)
    ensures out + (x + y) == out + x + y
  {
  }

  /** The run after `out`, one piece at a time. */
  lemma RunAfter(out: string, fs: seq<string>, a: string, b: string, d: string)
    requires |fs| == 5
    ensures out + Run(fs, a, b, d)
      == out + AngleTag(fs[0]) + a + AngleTag(fs[1]) + b + AngleTag(fs[2]) + " " + AngleTag(fs[3]) + d + AngleTag(fs[4])
  {
    var r1 := AngleTag(fs[0]) + a;
    var r2 := r1 + AngleTag(fs[1]);
    var r3 := r2 + b;
    var r4 := r3 + AngleTag(fs[2]);
    var r5 := r4 + " ";
    var r6 := r5 + AngleTag(fs[3]);
    var r7 := r6 + d;
    AppendTwice(out, AngleTag(fs[0]), a);
    AppendTwice(out, r1, AngleTag(fs[1]));
    AppendTwice(out, r2, b);
    AppendTwice(out, r3, AngleTag(fs[2]));
    AppendTwice(out, r4, " ");
    AppendTwice(out, r5, AngleTag(fs[3]));
    AppendTwice(out, r6, d);
    AppendTwice(out, r7, AngleTag(fs[4]));
  }

  /** The output a line's opening leaves never ends with a word tag. */
  lemma NoTagEnd(out: string, f: string)
    requires out == [] || out[|out| - 1] != '>'
    ensures !EndsWith(out, AngleTag(f))
  {
    EndsWithSlice(out, AngleTag(f));
    if |AngleTag(f)| <= |out| {
      assert out[|out| - |AngleTag(f)|..][|AngleTag(f)| - 1] == out[|out| - 1];
    }
  }

  /** The run read as a line: its four words, ending at the last tag. */
  lemma RunLine(fs: seq<string>, ts: seq<nat>, a: string, b: string, d: string,
                agent: Option<string>, begin: Option<nat>, background: bool)
    requires Shaped(fs) && ReadAs(fs, ts) && ts[4] != 0
    requires PlainText(a) && PlainText(b) && PlainText(d)
    ensures WordLine(Run(fs, a, b, d), agent, begin, background)
      == Success(Line(if Falsy(begin) then Some(ts[0]) else begin, Some(ts[4]), agent, Some(background),
                      Words(RunWords(ts, a, b, d))))
  {
    RunScan(fs, a, b, d);
    RunRead(fs, ts, a, b, d, begin);
  }

  /** The word adjacency of the LRC format: `<t0>a<t1>b<t2> <t3>d<t4>` reads as four
      words, `a` and `b` glued together and an empty word marking the space, and the
      words write the same text back after an output ending in `]` or `:` as a line
      opening leaves it. */
  lemma WordAdjacency(out: string, ts: seq<nat>, a: string, b: string, d: string,
                      agent: Option<string>, begin: Option<nat>, background: bool)
    requires RunTimes(ts) && ts[4] != 0
    requires PlainText(a) && PlainText(b) && PlainText(d)
    requires out == [] || out[|out| - 1] != '>'
    ensures var content := Run(Written(ts), a, b, d);
      && WordLine(content, agent, begin, background)
         == Success(Line(if Falsy(begin) then Some(ts[0]) else begin, Some(ts[4]), agent, Some(background),
                         Words(RunWords(ts, a, b, d))))
      && Body(WordTimed, out, WordLine(content, agent, begin, background).value) == Success(out + content)
  {
    var fs := Written(ts);
    WrittenStamps(ts);
    RunLine(fs, ts, a, b, d, agent, begin, background);
    var line := Line(if Falsy(begin) then Some(ts[0]) else begin, Some(ts[4]), agent, Some(background),
                     Words(RunWords(ts, a, b, d)));
    NoTagEnd(out, fs[0]);
    RunWritten(out, fs, ts, a, b, d);
    LineEndNotRepeated(WordTimed, out, line);
  }

  // The example of the format's description

  /** A word text without `<` whose last character is not a space fits the run. */
  lemma PlainWord(w: string)
    requires w != [] && w[|w| - 1] != ' ' && Lacks(w, '<')
    ensures PlainText(w)
  {
    EndsWithSlice(w, " ");
    if |" "| <= |w| {
      assert w[|w| - 1..][0] == w[|w| - 1];
    }
  }

  /** Whole hundreds below a thousand are padded to three digits, two of them zeros. */
  lemma PadHundreds(h: nat)
    requires h < 10
    ensures Pad(100 * h, 3) == [DigitChar(h), '0', '0']
  {
    if h == 0 {
      assert Pad(0, 3) == Zeros(2) + [DigitChar(0)];
      assert Zeros(2) == Zeros(1) + "0" == Zeros(0) + "0" + "0";
    } else {
      assert Digits(100 * h) == Digits(10 * h) + [DigitChar(0)];
      assert Digits(10 * h) == Digits(h) + [DigitChar(0)];
    }
  }

  /** The minutes and seconds of a time in the second second, padded. */
  lemma SecondOnePads(m: nat)
    requires 1000 <= m < 2000
    ensures Pad((m / 60000) % 3600, 2) == "00" && Pad((m / 1000) % 60, 2) == "01"
  {
    assert (m / 60000) % 3600 == 0 && (m / 1000) % 60 == 1;
    assert Pad(0, 2) == Zeros(1) + [DigitChar(0)];
    assert Pad(1, 2) == Zeros(1) + [DigitChar(1)];
  }

  /** `00:01.` followed by three digits. */
  lemma SecondOneText(c: char, p: string)
    requires p == [c, '0', '0']
    ensures "00" + ":" + ("01" + ['.'] + p) == "00:01." + p
  {
  }

  /** A time of one second and some hundreds of milliseconds is written `00:01.h00`. */
  lemma SecondOneStamp(m: nat, h: nat)
    requires h < 10 && m == 1000 + 100 * h
    ensures FormatTime(m, 1, '.') == "00:01." + [DigitChar(h), '0', '0']
  {
    FormatOneColon(m, '.');
    SecondOnePads(m);
    assert m % 1000 == 100 * h;
    PadHundreds(h);
    SecondOneText(DigitChar(h), [DigitChar(h), '0', '0']);
  }

  /** The five times of the example, `1000 + 200 * k` milliseconds, written. */
  lemma ExampleStamps(ts: seq<nat>)
    requires |ts| == 5 && forall k | 0 <= k < 5 :: ts[k] == 1000 + 200 * k
    ensures RunTimes(ts)
    ensures Written(ts)[0] == "00:01.000" && Written(ts)[1] == "00:01.200" && Written(ts)[2] == "00:01.400"
    ensures Written(ts)[3] == "00:01.600" && Written(ts)[4] == "00:01.800"
  {
    var fs := Written(ts);
    assert fs[0] == "00:01.000" by { SecondOneStamp(ts[0], 0); DigitOf(0, '0'); }
    assert fs[1] == "00:01.200" by { SecondOneStamp(ts[1], 2); DigitOf(2, '2'); }
    assert fs[2] == "00:01.400" by { SecondOneStamp(ts[2], 4); DigitOf(4, '4'); }
    assert fs[3] == "00:01.600" by { SecondOneStamp(ts[3], 6); DigitOf(6, '6'); }
    assert fs[4] == "00:01.800" by { SecondOneStamp(ts[4], 8); DigitOf(8, '8'); }
  }

  /** The digit `c` spelled for `d`, and `00:01.c00` spelled out. */
  lemma DigitOf(d: nat, c: char)
    requires d < 10 && c as int == '0' as int + d
    ensures DigitChar(d) == c
    ensures "00:01." + [c, '0', '0'] == ['0', '0', ':', '0', '1', '.', c, '0', '0']
  {
  }

  /** The texts of the example fit the run. */
  lemma ExampleTexts(a: string, b: string, d: string)
    requires a == "Hel" && b == "lo" && d == "world"
    ensures PlainText(a) && PlainText(b) && PlainText(d)
  {
    assert a[0] == 'H' && a[1] == 'e' && a[2] == 'l';
    assert b[0] == 'l' && b[1] == 'o';
    assert d[0] == 'w' && d[1] == 'o' && d[2] == 'r' && d[3] == 'l' && d[4] == 'd';
    PlainWord(a);
    PlainWord(b);
    PlainWord(d);
  }

  /** The word tags of the example spelled out. */
  lemma ExampleTags(fs: seq<string>)
    requires |fs| == 5 && fs[0] == "00:01.000" && fs[1] == "00:01.200" && fs[2] == "00:01.400"
    requires fs[3] == "00:01.600" && fs[4] == "00:01.800"
    ensures AngleTag(fs[0]) == "<00:01.000>" && AngleTag(fs[1]) == "<00:01.200>"
    ensures AngleTag(fs[2]) == "<00:01.400>" && AngleTag(fs[3]) == "<00:01.600>"
    ensures AngleTag(fs[4]) == "<00:01.800>"
  {
  }

  /** `<00:01.000>Hel<00:01.200>lo<00:01.400> <00:01.600>world<00:01.800>` after a line
      tag reads as `Hel` and `lo` glued together, an empty word for the space and
      `world`, and writes back unchanged. */
  lemma AdjacencyExample(out: string)
    requires out == [] || out[|out| - 1] != '>'
    ensures var content := "<00:01.000>" + "Hel" + "<00:01.200>" + "lo" + "<00:01.400>" + " "
                           + "<00:01.600>" + "world" + "<00:01.800>";
      var words := [Word(Some(1000), Some(1200), true, "Hel"), Word(Some(1200), Some(1400), true, "lo"),
                    Word(Some(1400), Some(1600), false, ""), Word(Some(1600), Some(1800), true, "world")];
      && WordLine(content, None, None, false) == Success(Line(Some(1000), Some(1800), None, Some(false), Words(words)))
      && Body(WordTimed, out, WordLine(content, None, None, false).value) == Success(out + content)
  {
    var ts: seq<nat> := [1000, 1200, 1400, 1600, 1800];
    ExampleStamps(ts);
    ExampleTags(Written(ts));
    ExampleTexts("Hel", "lo", "world");
    WordAdjacency(out, ts, "Hel", "lo", "world", None, None, false);
  }

  // A background line inside a span

  /** No span opens anywhere in `s[i..]` when it holds no `[`. */
  lemma {:induction false} NoSpanAfter(s: string, i: nat)
    requires i <= |s| && forall k | i <= k < |s| :: s[k] != '['
    ensures BgScan(s, i) == []
    decreases |s| - i
  {
    if i < |s| {
      assert !BgOpenAt(s, i);
      assert i + 1 < |s| ==> !BgOpenAt(s, i + 1);
      NoSpanAfter(s, i + 1);
    }
  }

  /** A span opened one space after `i` is matched from `i`, and the scan goes on after it. */
  lemma SpacedSpanAt(s: string, i: nat, span: Span, next: nat)
    requires i < |s| && s[i] == ' ' && SpanFrom(s, i, i + 1) == Some((span, next))
    ensures BgScan(s, i) == [span] + BgScan(s, next)
  {
  }

  /** The span of the nested example and its inner text. */
  lemma NestedPieces(s: string)
    requires s == "Lead [bg:[00:10.00]Echo]"
    ensures s[4..19] == " [bg:[00:10.00]" && s[9..18] == "[00:10.00"
  {
  }

  /** A line whose background span holds a line tag: the lazy `.*?` closes the span at
      the tag's `]`, so the span's inner text is the tag's opening alone and `Echo]`
      is left outside every span (`NestedParsed` below). */
  lemma NestedBackground(s: string)
    requires s == "Lead [bg:[00:10.00]Echo]"
    ensures BgSpans(s) == [Span(" [bg:[00:10.00]", "[00:10.00")]
  {
    assert s[0] != '[' && s[1] != '[' && s[2] != '[' && s[3] != '[' && s[4] == ' ';
    assert BgScan(s, 0) == BgScan(s, 4) by {
      assert BgScan(s, 0) == BgScan(s, 1) && BgScan(s, 1) == BgScan(s, 2);
      assert BgScan(s, 2) == BgScan(s, 3) && BgScan(s, 3) == BgScan(s, 4);
    }
    IndexFromAt(s, ']', 9, 18);
    var span := Span(s[4..19], s[9..18]);
    assert SpanFrom(s, 4, 5) == Some((span, 19));
    SpacedSpanAt(s, 4, span, 19);
    NoSpanAfter(s, 19);
    NestedPieces(s);
  }

  /** Removing the one occurrence of `m` that follows `lead`, when what is left after it
      is too short to hold another. */
  lemma RemoveOnce(s: string, lead: string, m: string, rest: string)
    requires |m| > 0 && s == lead + m + rest && |rest| < |m|
    requires forall i | 0 <= i < |lead| :: !OccursAt(s, m, i)
    ensures RemoveAll(s, m) == lead + rest
  {
    SplitOnFirst(s, m, lead, rest);
    assert SplitOn(rest, m) == [rest] by {
      assert !OccursAt(rest, m, 0);
    }
    assert [lead] + [rest] == [lead, rest];
    assert [lead, rest][1..] == [rest];
    assert Concat([rest]) == rest + Concat([]) by { assert [rest][1..] == []; }
    assert rest + "" == rest;
  }

  /** The pieces of the nested example. */
  lemma NestedText(s: string, lead: string, m: string, rest: string, inner: string)
    requires s == "Lead [bg:[00:10.00]Echo]" && lead == "Lead" && m == " [bg:[00:10.00]"
    requires rest == "Echo]" && inner == "[00:10.00"
    ensures s == lead + m + rest && forall i | 0 <= i < |lead| :: !OccursAt(s, m, i)
    ensures lead + rest == "LeadEcho]" && Lacks(lead + rest, '<') && Lacks(inner, '<')
  {
    forall i | 0 <= i < |lead|
      ensures !OccursAt(s, m, i)
    {
      assert s[i] != ' ' && m[0] == ' ';
    }
    assert lead + rest == "LeadEcho]";
  }

  /** A single span gives the single background line it reads as. */
  lemma OneBgLine(span: Span, bg: Line)
    requires BgLineOf(span) == Success(bg)
    ensures BgLines([span]) == Success([bg])
  {
    assert Collect(BgLineOf, [span], 1, [] + [bg]) == Success([bg]) by {
      assert [] + [bg] == [bg];
    }
  }

  /** The nested example parsed: the main line keeps `LeadEcho]` as its text, and the one
      background line is the text `[00:10.00`, with no time of its own. */
  lemma NestedParsed(s: string, agent: Option<string>, begin: Option<nat>)
    requires s == "Lead [bg:[00:10.00]Echo]"
    ensures ParsedLine(s, agent, begin, false)
      == Success((Line(begin, None, agent, Some(false), Text("LeadEcho]")),
                  [Line(None, None, None, Some(true), Text("[00:10.00"))]))
  {
    var lead, m, rest, inner := "Lead", " [bg:[00:10.00]", "Echo]", "[00:10.00";
    NestedBackground(s);
    NestedText(s, lead, m, rest, inner);
    var spans := [Span(m, inner)];
    SpansNonEmpty(s, 0);
    var bg := Line(None, None, None, Some(true), Text(inner));
    PlainTextLine(inner, None, None, true);
    OneBgLine(Span(m, inner), bg);
    assert StripFrom(s, spans, 0) == lead + rest by {
      RemoveOnce(s, lead, m, rest);
      assert StripFrom(lead + rest, spans, 1) == lead + rest;
    }
    PlainTextLine(lead + rest, agent, begin, false);
  }

  // ---------------------------------------------------------------------------
  // Lines the timing check does not see
  // ---------------------------------------------------------------------------

  /** The characters of a written stamp are digits, `:` and `.`. */
  lemma StampChars(f: string)
    requires |f| == 9 && LrcShape(f, 0)
    ensures forall j | 0 <= j < 9 :: IsDigit(f[j]) || f[j] == ':' || f[j] == '.'
  {
    forall j | 0 <= j < 9
      ensures IsDigit(f[j]) || f[j] == ':' || f[j] == '.'
    {
      assert j == 0 || j == 1 || j == 2 || j == 3 || j == 4 || j == 5 || j == 6 || j == 7 || j == 8;
    }
  }

  /** A line opening with a written tag and then text that is neither an agent nor a
      space: the line pattern reads the stamp, no agent and the text, and the metadata
      pattern does not match, since a digit comes before the first `:`. */
  lemma PlainHeadRead(l: string, f: string, rest: string)
    requires |f| == 9 && LrcShape(f, 0) && l == "[" + f + "]" + rest
    requires rest != [] && rest[0] != 'v' && rest[0] != ' '
    ensures MatchLine(l) == Tagged(f, None, rest) && !IsMetadataLine(l)
  {
    LineTagRead(l, f, rest);
    assert l[11] == rest[0] && l[1] == f[0];
  }

  /** A text the line pattern and the span pattern pass through unchanged: not empty,
      neither an agent's `v` nor a space first, and no `<`, `[`, `]` or line break. */
  predicate Bare(t: string)
  {
    && t != [] && t[0] != 'v' && t[0] != ' '
    && Lacks(t, '<') && Lacks(t, '[') && Lacks(t, ']')
    && forall i | 0 <= i < |t| :: !IsLineBreak(t[i])
  }

  /** A written line tag followed by a bare text holds no line break. */
  lemma TaggedNoBreak(f: string, a: string)
    requires |f| == 9 && LrcShape(f, 0) && Bare(a)
    ensures var l := "[" + f + "]" + a;
      forall i | 0 <= i < |l| :: !IsLineBreak(l[i])
  {
    var l := "[" + f + "]" + a;
    StampChars(f);
    forall i | 0 <= i < |l|
      ensures !IsLineBreak(l[i])
    {
      if 1 <= i < 10 {
        assert l[i] == f[i - 1];
      } else if i >= 11 {
        assert l[i] == a[i - 11];
      }
    }
  }

  /** `[f]a` and then the untagged `b`, where `f` reads as zero. The first line fixes
      `Line` timing, but its begin is falsy, so `b` is kept after it as an untimed line
      (neither joined to `a` nor dropped), and the document keeps `Line` timing. The
      writer then has no begin to open that line with. */
  lemma UntimedInLineTimed(f: string, a: string, b: string)
    requires |f| == 9 && LrcShape(f, 0) && StampTime(f) == Success(0)
    requires Bare(a) && Bare(b)
    ensures Parsed("[" + f + "]" + a + "\n" + b)
      == Success(Document(LineTimed, [Line(Some(0), None, None, Some(false), Text(a)), UntimedLine(b)]))
    ensures Opening("", UntimedLine(b)) == Failure(MissingValue)
  {
    var l := "[" + f + "]" + a;
    TaggedNoBreak(f, a);
    assert "[" + f + "]" + a + "\n" + b == l + "\n" + b;
    SplitTwoLines(l, b);
    PlainHeadRead(l, f, a);
    NoSpansWithoutClose(a, 0);
    PlainTextLine(a, None, Some(0), false);
    var line := Line(Some(0), None, None, Some(false), Text(a));
    assert ParsedLine(a, None, Some(0), false) == Success((line, []));
    var st := ParseState(LineTimed, [line]);
    assert LineStep(ParseState(Unset, []), l) == Success(st) by {
      TimedAccepted(ParseState(Unset, []), l, 0, line, []);
      assert CloseLast([], line.begin) + [line] + [] == [line];
    }
    UntaggedWithoutBracket(b);
    assert LineStep(st, b) == Success(ParseState(LineTimed, [line, UntimedLine(b)])) by {
      assert !IsMetadataLine(b);
      assert MatchLine(b) == Untagged(b);
      assert Falsy(line.begin);
      assert [line] + [UntimedLine(b)] == [line, UntimedLine(b)];
    }
    var ls := [l, b];
    assert ParseFrom(ls, 1, st) == ParseFrom(ls, 2, ParseState(LineTimed, [line, UntimedLine(b)]));
    assert ParseFrom(ls, 0, ParseState(Unset, [])) == ParseFrom(ls, 1, st);
  }

  /** A tag `<f>` of the written shape holds no `[`. */
  lemma AngleTagNoBracket(f: string)
    requires |f| == 9 && LrcShape(f, 0)
    ensures Lacks(AngleTag(f), '[')
  {
    StampChars(f);
    var t := AngleTag(f);
    forall i | 0 <= i < |t|
      ensures t[i] != '['
    {
      if 1 <= i < 10 {
        assert t[i] == f[i - 1];
      }
    }
  }

  /** The adjacency run holds no `[` when its texts hold none. */
  lemma RunNoBracket(fs: seq<string>, a: string, b: string, d: string)
    requires Shaped(fs) && Lacks(a, '[') && Lacks(b, '[') && Lacks(d, '[')
    ensures Lacks(Run(fs, a, b, d), '[')
  {
    forall k | 0 <= k < 5
      ensures Lacks(AngleTag(fs[k]), '[')
    {
      AngleTagNoBracket(fs[k]);
    }
    var x := AngleTag(fs[0]) + a;
    LacksConcat(AngleTag(fs[0]), a, '[');
    LacksConcat(x, AngleTag(fs[1]), '[');
    x := x + AngleTag(fs[1]);
    LacksConcat(x, b, '[');
    x := x + b;
    LacksConcat(x, AngleTag(fs[2]), '[');
    x := x + AngleTag(fs[2]);
    LacksConcat(x, " ", '[');
    x := x + " ";
    LacksConcat(x, AngleTag(fs[3]), '[');
    x := x + AngleTag(fs[3]);
    LacksConcat(x, d, '[');
    x := x + d;
    LacksConcat(x, AngleTag(fs[4]), '[');
  }

  /** No span is matched before position `j` when no `[` comes up to it. */
  lemma {:induction false} NoSpanBefore(s: string, i: nat, j: nat)
    requires i <= j < |s| && forall k | i <= k <= j :: s[k] != '['
    ensures BgScan(s, i) == BgScan(s, j)
    decreases j - i
  {
    if i < j {
      assert !BgOpenAt(s, i) && !BgOpenAt(s, i + 1);
      NoSpanBefore(s, i + 1, j);
    }
  }

  /** The spans of the run followed by ` [bg:inner]`: that one span. */
  lemma RunSpan(run: string, inner: string, s: string)
    requires Lacks(run, '[') && Lacks(inner, ']') && s == run + " [bg:" + inner + "]"
    ensures BgSpans(s) == [Span(" [bg:" + inner + "]", inner)]
  {
    var n := |run|;
    assert forall k | 0 <= k < n :: s[k] == run[k];
    SpanAfter(run, inner, s);
    NoSpanBefore(s, 0, n);
    SpacedSpanAt(s, n, Span(" [bg:" + inner + "]", inner), |s|);
  }

  /** The span ` [bg:inner]` that follows `run` is matched from the space before it. */
  lemma SpanAfter(run: string, inner: string, s: string)
    requires Lacks(inner, ']') && s == run + " [bg:" + inner + "]"
    ensures s[|run|] == ' ' && s[|run| + 1] == '['
    ensures SpanFrom(s, |run|, |run| + 1) == Some((Span(" [bg:" + inner + "]", inner), |s|))
  {
    var m := " [bg:" + inner + "]";
    var n := |run|;
    assert s[n] == ' ' && s[n + 1] == '[' && s[n + 2] == 'b' && s[n + 3] == 'g' && s[n + 4] == ':';
    assert forall k | n + 5 <= k < |s| - 1 :: s[k] == inner[k - n - 5];
    IndexFromAt(s, ']', n + 5, |s| - 1);
    assert s[n..|s|] == m && s[n + 5..|s| - 1] == inner;
  }

  /** Removing ` [bg:inner]` from after a text without `[` leaves that text. */
  lemma StripOneSpan(run: string, inner: string, s: string)
    requires Lacks(run, '[') && s == run + " [bg:" + inner + "]"
    ensures var spans := [Span(" [bg:" + inner + "]", inner)];
      NonEmptyMatches(spans) && StripFrom(s, spans, 0) == run
  {
    var m := " [bg:" + inner + "]";
    var span := Span(m, inner);
    forall i | 0 <= i < |run|
      ensures !OccursAt(s, m, i)
    {
      assert s[i + 1] != m[1] by {
        if i + 1 < |run| {
          assert s[i + 1] == run[i + 1];
        }
      }
    }
    assert s == run + m + "";
    RemoveOnce(s, run, m, "");
    assert run + "" == run;
    assert StripFrom(run, [span], 1) == run;
  }

  /** A text without `[` followed by ` [bg:inner]`, read as a foreground line: the
      line the text alone reads as, and one background line holding `inner` as text. */
  lemma LineWithTextSpan(run: string, inner: string, agent: Option<string>, begin: Option<nat>, main: Line)
    requires Lacks(run, '[') && Lacks(inner, '<') && Lacks(inner, ']')
    requires WordLine(run, agent, begin, false) == Success(main)
    ensures ParsedLine(run + " [bg:" + inner + "]", agent, begin, false)
      == Success((main, [Line(None, None, None, Some(true), Text(inner))]))
  {
    var s := run + " [bg:" + inner + "]";
    var span := Span(" [bg:" + inner + "]", inner);
    RunSpan(run, inner, s);
    StripOneSpan(run, inner, s);
    var bg := Line(None, None, None, Some(true), Text(inner));
    PlainTextLine(inner, None, None, true);
    OneBgLine(span, bg);
  }

  /** The run followed by ` [bg:inner]`, read as a foreground line: the run's four
      words, and one background line holding `inner` as text. */
  lemma RunWithTextSpan(fs: seq<string>, ts: seq<nat>, a: string, b: string, d: string, inner: string)
    requires Shaped(fs) && ReadAs(fs, ts) && ts[4] != 0
    requires PlainText(a) && PlainText(b) && PlainText(d)
    requires Lacks(a, '[') && Lacks(b, '[') && Lacks(d, '[') && Lacks(inner, '<') && Lacks(inner, ']')
    ensures ParsedLine(Run(fs, a, b, d) + " [bg:" + inner + "]", None, Some(ts[0]), false)
      == Success((Line(Some(ts[0]), Some(ts[4]), None, Some(false), Words(RunWords(ts, a, b, d))),
                  [Line(None, None, None, Some(true), Text(inner))]))
  {
    RunNoBracket(fs, a, b, d);
    RunLine(fs, ts, a, b, d, None, Some(ts[0]), false);
    LineWithTextSpan(Run(fs, a, b, d), inner, None, Some(ts[0]),
                     Line(Some(ts[0]), Some(ts[4]), None, Some(false), Words(RunWords(ts, a, b, d))));
  }

  /** The run opens with the `<` of its first tag. */
  lemma RunOpens(fs: seq<string>, a: string, b: string, d: string, after: string)
    requires |fs| == 5
    ensures (Run(fs, a, b, d) + after)[0] == '<'
  {
    var r := Run(fs, a, b, d);
    assert r == AngleTag(fs[0]) + (a + AngleTag(fs[1]) + b + AngleTag(fs[2]) + " " + AngleTag(fs[3]) + d + AngleTag(fs[4]));
    assert (r + after)[0] == r[0] == AngleTag(fs[0])[0];
  }

  /** A line opening with a written tag and then a word tag: the stamp, read as the
      time it was written from, no agent, and the rest of the line. */
  lemma WrittenHead(f: string, t: nat, content: string)
    requires |f| == 9 && LrcShape(f, 0) && StampTime(f) == Success(t)
    requires content != [] && content[0] == '<'
    ensures var l := "[" + f + "]" + content;
      && !IsMetadataLine(l) && MatchLine(l).Tagged?
      && MatchLine(l).stamp == f && MatchLine(l).agent == None && MatchLine(l).rest == content
      && StampTime(MatchLine(l).stamp) == Success(t)
  {
    PlainHeadRead("[" + f + "]" + content, f, content);
  }

  /** Two lines appended one after the other. */
  lemma LinesAfter(xs: seq<Line>, p: Line, q: Line)
    ensures xs + [p] + [q] == xs + [p, q]
  {
  }

  /** The line `[t0]` + run + ` [bg:inner]` read up to its content: a tagged line at
      `t0` with no agent, whose content reads as the run's words and one background
      line holding `inner` as text. */
  lemma RunLineWithTextSpan(ts: seq<nat>, a: string, b: string, d: string, inner: string)
    requires RunTimes(ts) && ts[4] != 0
    requires PlainText(a) && PlainText(b) && PlainText(d)
    requires Lacks(a, '[') && Lacks(b, '[') && Lacks(d, '[') && Lacks(inner, '<') && Lacks(inner, ']')
    ensures var fs := Written(ts);
      var l := "[" + fs[0] + "]" + (Run(fs, a, b, d) + " [bg:" + inner + "]");
      && !IsMetadataLine(l) && MatchLine(l).Tagged?
      && StampTime(MatchLine(l).stamp) == Success(ts[0])
      && ParsedLine(MatchLine(l).rest, MatchLine(l).agent, Some(ts[0]), false)
         == Success((Line(Some(ts[0]), Some(ts[4]), None, Some(false), Words(RunWords(ts, a, b, d))),
                     [Line(None, None, None, Some(true), Text(inner))]))
  {
    var fs := Written(ts);
    WrittenStamps(ts);
    var content := Run(fs, a, b, d) + " [bg:" + inner + "]";
    RunOpens(fs, a, b, d, " [bg:" + inner + "]");
    WrittenHead(fs[0], ts[0], content);
    RunWithTextSpan(fs, ts, a, b, d, inner);
  }

  /** Under `Word` timing the writer's word loop cannot write a line that holds text
      (and a background line has no end to close it with). */
  lemma TextLineUnwritable(out: string, line: Line)
    requires line.content.Text? && line.content.text != ""
    ensures Body(WordTimed, out, line) == Failure(MissingValue)
  {
  }

  /** A `Word`-timed line `[t0]` + run + ` [bg:inner]`, met while the timing is unset or
      `Word`: the timing check looks only at the foreground line, so the document
      keeps `Word` timing and takes in a background line that has text and no words,
      which the writer's word loop then cannot write (`TextLineUnwritable`). */
  lemma TextBackgroundInWordTimed(st: ParseState, ts: seq<nat>, a: string, b: string, d: string, inner: string)
    requires st.timing == WordTimed || st.timing == Unset
    requires RunTimes(ts) && ts[4] != 0
    requires PlainText(a) && PlainText(b) && PlainText(d)
    requires Lacks(a, '[') && Lacks(b, '[') && Lacks(d, '[')
    requires Lacks(inner, '<') && Lacks(inner, ']')
    ensures var fs := Written(ts);
      var main := Line(Some(ts[0]), Some(ts[4]), None, Some(false), Words(RunWords(ts, a, b, d)));
      var bg := Line(None, None, None, Some(true), Text(inner));
      LineStep(st, "[" + fs[0] + "]" + (Run(fs, a, b, d) + " [bg:" + inner + "]"))
        == Success(ParseState(WordTimed, CloseLast(st.lines, Some(ts[0])) + [main, bg]))
  {
    var fs := Written(ts);
    var l := "[" + fs[0] + "]" + (Run(fs, a, b, d) + " [bg:" + inner + "]");
    RunLineWithTextSpan(ts, a, b, d, inner);
    var main := Line(Some(ts[0]), Some(ts[4]), None, Some(false), Words(RunWords(ts, a, b, d)));
    var bg := Line(None, None, None, Some(true), Text(inner));
    TimedAccepted(st, l, ts[0], main, [bg]);
    LinesAfter(CloseLast(st.lines, Some(ts[0])), main, bg);
  }
}
