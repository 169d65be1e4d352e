/**
 * lrxy/converter/srt.py: what `parse` reads back from the text `generate` writes.
 * Under `Line` timing every line comes back with its times and its text, with no
 * agent and not background, as long as the times stay below 100 minutes (the
 * middle group of an SRT time is the total number of minutes, and the block
 * pattern reads exactly two digits there) and each text is one non-empty line.
 */
module SrtRoundTrip {
  import opened Wrappers
  import opened Text
  import opened Lyrics
  import opened TimeCodec
  import opened LrcScan
  import opened Srt

  /** 100 minutes in milliseconds: from here on the minutes group has three digits. */
  const Limit: nat := 6000000

  /** `HH:MM:SS,mmm` sits at position `i` of `s`. */
  predicate StampShape(s: string, i: nat)
  {
    && i + 12 <= |s|
    && IsDigit(s[i]) && IsDigit(s[i + 1]) && s[i + 2] == ':'
    && IsDigit(s[i + 3]) && IsDigit(s[i + 4]) && s[i + 5] == ':'
    && IsDigit(s[i + 6]) && IsDigit(s[i + 7]) && s[i + 8] == ','
    && IsDigit(s[i + 9]) && IsDigit(s[i + 10]) && IsDigit(s[i + 11])
  }

  /** The four padded groups of an SRT time put together. */
  lemma StampPieces(s: string, a: string, b: string, c: string, d: string)
    requires |a| == 2 && |b| == 2 && |c| == 2 && |d| == 3
    requires AllDigits(a) && AllDigits(b) && AllDigits(c) && AllDigits(d)
    requires s == a + ":" + b + ":" + (c + [','] + d)
    ensures |s| == 12 && StampShape(s, 0) && Lacks(s, '\n')
  {
    assert s[0] == a[0] && s[1] == a[1] && s[3] == b[0] && s[4] == b[1];
    assert s[6] == c[0] && s[7] == c[1] && s[9] == d[0] && s[10] == d[1] && s[11] == d[2];
  }

  lemma PadTwo(n: nat)
    requires n < 100
    ensures |Pad(n, 2)| == 2 && AllDigits(Pad(n, 2))
  {
    DigitsSpec(n);
    PadSpec(n, 2);
  }

  lemma PadThree(n: nat)
    requires n < 1000
    ensures |Pad(n, 3)| == 3 && AllDigits(Pad(n, 3))
  {
    DigitsSpec(n);
    PadSpec(n, 3);
  }

  /** The groups written for a time below 100 minutes: no hours, fewer than 100 minutes. */
  lemma SmallGroups(m: nat)
    requires m < Limit
    ensures (m / 60000 / 3600) % 216000 == 0 && (m / 60000) % 3600 < 100
    ensures (m / 1000) % 60 < 100 && m % 1000 < 1000
  {
    assert m / 60000 < 100;
  }

  /** The padded groups of a time below 100 minutes put together. */
  lemma ShapeOf(s: string, h: nat, mi: nat, sec: nat, ms: nat)
    requires s == Pad(h, 2) + ":" + Pad(mi, 2) + ":" + (Pad(sec, 2) + [','] + Pad(ms, 3))
    requires h < 100 && mi < 100 && sec < 100 && ms < 1000
    ensures |s| == 12 && StampShape(s, 0) && Lacks(s, '\n')
  {
    PadTwo(h);
    PadTwo(mi);
    PadTwo(sec);
    PadThree(ms);
    StampPieces(s, Pad(h, 2), Pad(mi, 2), Pad(sec, 2), Pad(ms, 3));
  }

  /** Below 100 minutes an SRT time is twelve characters, `00:MM:SS,mmm`. */
  lemma SrtTimeShape(m: nat)
    requires m < Limit
    ensures |SrtTime(m)| == 12 && StampShape(SrtTime(m), 0) && Lacks(SrtTime(m), '\n')
  {
    FormatTwoColons(m, ',');
    SmallGroups(m);
    ShapeOf(SrtTime(m), (m / 60000 / 3600) % 216000, (m / 60000) % 3600, (m / 1000) % 60, m % 1000);
  }

  /** An SRT time below 100 minutes reads back as itself. */
  lemma SrtReadTime(m: nat)
    requires m < Limit
    ensures SrtRead(SrtTime(m)) == Success(Some(m))
  {
    RoundTripTwoColons(m, ',');
  }

  /** The timestamp scanner takes exactly the twelve characters of an SRT time. */
  lemma StampAt(s: string, i: nat)
    requires StampShape(s, i) && (i + 12 < |s| ==> !IsDigit(s[i + 12]))
    ensures StampEndWith(s, i, ',') == Some(i + 12)
  {
    assert ColonGroupsEnd(s, i + 8) == i + 8;
    assert ColonGroupsEnd(s, i + 5) == i + 8;
    assert ColonGroupsEnd(s, i + 2) == i + 8;
    DigitRunEndAt(s, i + 9, i + 12);
  }

  /** Where the pieces of a block's first lines sit. */
  lemma CorePositions(c: string, d: string, b: string, e: string, t: string)
    requires c == d + "\n" + b + Arrow + e + "\n" + t && |b| == 12 && |e| == 12
    ensures |c| == |d| + 31 + |t|
    ensures c[..|d|] == d && c[|d|] == '\n' && c[|d| + 30] == '\n'
    ensures c[|d| + 1..|d| + 13] == b && c[|d| + 13..|d| + 18] == Arrow
    ensures c[|d| + 18..|d| + 30] == e && c[|d| + 31..|c|] == t
  {
  }

  /** A timestamp copied into `c` at `i` keeps its layout. */
  lemma StampCopied(c: string, i: nat, b: string)
    requires i + 12 <= |c| && c[i..i + 12] == b && StampShape(b, 0)
    ensures StampShape(c, i)
  {
    assert forall j | 0 <= j < 12 :: c[i + j] == b[j];
  }

  /** `c` is laid out as a block whose number has `n` digits: the number, a line break,
      a time, the arrow, a time, a line break and a non-empty text of one line. */
  predicate BlockLayout(c: string, n: nat)
  {
    && 1 <= n && n + 31 < |c| && DigitsIn(c, 0, n) && c[n] == '\n'
    && StampShape(c, n + 1) && ArrowAt(c, n + 13) && StampShape(c, n + 18) && c[n + 30] == '\n'
    && forall i | n + 31 <= i < |c| :: c[i] != '\n'
  }

  /** Where the block pattern cuts a text laid out as a block. */
  lemma CutsAt(c: string, n: nat)
    requires BlockLayout(c, n)
    ensures BlockCuts(c) == Some(Cuts(n, n + 13, n + 30, |c|))
  {
    DigitRunEndAt(c, 0, n);
    assert c[n + 13] == Arrow[0];
    StampAt(c, n + 1);
    StampAt(c, n + 18);
    IndexFromAt(c, '\n', n + 31, |c|);
  }

  /** The groups of a match are the pieces between the cuts. */
  lemma MatchFromCuts(c: string, n: nat, d: string, b: string, e: string, t: string)
    requires n + 31 <= |c| && BlockCuts(c) == Some(Cuts(n, n + 13, n + 30, |c|))
    requires c[..n] == d && c[n + 1..n + 13] == b && c[n + 18..n + 30] == e && c[n + 31..|c|] == t
    ensures MatchBlock(c) == Some(Block(d, b, e, t))
  {
  }

  /** A block's first lines laid out as the block pattern expects them. */
  lemma CoreLayout(c: string, d: string, b: string, e: string, t: string)
    requires c == d + "\n" + b + Arrow + e + "\n" + t
    requires |d| >= 1 && AllDigits(d)
    requires |b| == 12 && StampShape(b, 0) && |e| == 12 && StampShape(e, 0)
    requires |t| >= 1 && Lacks(t, '\n')
    ensures |c| == |d| + 31 + |t| && BlockLayout(c, |d|)
    ensures c[..|d|] == d && c[|d| + 1..|d| + 13] == b && c[|d| + 18..|d| + 30] == e && c[|d| + 31..|c|] == t
  {
    var n := |d|;
    CorePositions(c, d, b, e, t);
    assert forall i | 0 <= i < n :: c[i] == c[..n][i];
    StampCopied(c, n + 1, b);
    StampCopied(c, n + 18, e);
    assert c[n + 13..n + 18][0] == ' ' && c[n + 13..n + 18][4] == ' ';
    assert forall i | n + 31 <= i < |c| :: c[i] == c[n + 31..|c|][i - n - 31];
  }

  /** The block pattern takes a text laid out as a block apart. */
  lemma MatchLaid(c: string, n: nat, d: string, b: string, e: string, t: string)
    requires BlockLayout(c, n)
    requires c[..n] == d && c[n + 1..n + 13] == b && c[n + 18..n + 30] == e && c[n + 31..|c|] == t
    ensures MatchBlock(c) == Some(Block(d, b, e, t))
  {
    CutsAt(c, n);
    MatchFromCuts(c, n, d, b, e, t);
  }

  /** The block pattern takes a block's number, its two times and its text apart. */
  lemma MatchCore(c: string, d: string, b: string, e: string, t: string)
    requires c == d + "\n" + b + Arrow + e + "\n" + t
    requires |d| >= 1 && AllDigits(d)
    requires |b| == 12 && StampShape(b, 0) && |e| == 12 && StampShape(e, 0)
    requires |t| >= 1 && Lacks(t, '\n')
    ensures MatchBlock(c) == Some(Block(d, b, e, t))
  {
    CoreLayout(c, d, b, e, t);
    MatchLaid(c, |d|, d, b, e, t);
  }

  // ---------------------------------------------------------------------------
  // Blocks as `generate` writes them under `Line` timing
  // ---------------------------------------------------------------------------

  /** A line `generate` writes as a block that `parse` reads back: both times present
      and below 100 minutes, and one non-empty line of text. */
  predicate Writable(l: Line)
  {
    && l.begin.Some? && l.begin.value < Limit
    && l.end.Some? && l.end.value < Limit
    && l.content.Text? && |l.content.text| >= 1 && Lacks(l.content.text, '\n')
  }

  predicate AllWritable(ls: seq<Line>)
  {
    forall i | 0 <= i < |ls| :: Writable(ls[i])
  }

  /** The time of a writable line (a missing one, which is never written, as zero). */
  function TimeOf(t: Option<nat>): nat
  {
    if t.Some? then t.value else 0
  }

  /** The text of a writable line. */
  function TextOf(c: Content): string
  {
    if c.Text? then c.text else ""
  }

  /** The block of the line at position `i`, without the blank line that ends it. */
  function Core(i: nat, l: Line): string
  {
    Digits(i + 1) + "\n" + SrtTime(TimeOf(l.begin)) + Arrow + SrtTime(TimeOf(l.end)) + "\n" + TextOf(l.content)
  }

  /** The groups the block pattern finds in that block. */
  function CoreBlock(i: nat, l: Line): Block
  {
    Block(Digits(i + 1), SrtTime(TimeOf(l.begin)), SrtTime(TimeOf(l.end)), TextOf(l.content))
  }

  /** The blocks of all lines, in order. */
  function Cores(ls: seq<Line>): (r: seq<string>)
    ensures |r| == |ls| && forall i | 0 <= i < |ls| :: r[i] == Core(i, ls[i])
  {
    seq(|ls|, i requires 0 <= i < |ls| => Core(i, ls[i]))
  }

  /** The groups of the blocks of all lines, in order. */
  function CoreBlocks(ls: seq<Line>): (r: seq<Block>)
    ensures |r| == |ls| && forall i | 0 <= i < |ls| :: r[i] == CoreBlock(i, ls[i])
  {
    seq(|ls|, i requires 0 <= i < |ls| => CoreBlock(i, ls[i]))
  }

  /** Blocks written one after the other, each followed by a blank line. */
  function JoinBlocks(cs: seq<string>): string
  {
    if cs == [] then "" else cs[0] + BlankLine + JoinBlocks(cs[1..])
  }

  /** A line as SRT keeps it: its times and content, no agent, not background. */
  function Plain(l: Line): Line
  {
    Line(l.begin, l.end, None, Some(false), l.content)
  }

  /** The lines as SRT keeps them. */
  function Plains(ls: seq<Line>): (r: seq<Line>)
    ensures |r| == |ls| && forall i | 0 <= i < |ls| :: r[i] == Plain(ls[i])
  {
    seq(|ls|, i requires 0 <= i < |ls| => Plain(ls[i]))
  }

  /** Every line break in `c` is followed by a character that is not one. */
  predicate SingleBreaks(c: string)
  {
    forall j | 0 <= j < |c| :: c[j] == '\n' ==> j + 1 < |c| && c[j + 1] != '\n'
  }

  // ---------------------------------------------------------------------------
  // Generation
  // ---------------------------------------------------------------------------

  lemma Regroup(out: string, d: string, b: string, e: string, t: string)
    ensures out + (d + "\n") + b + Arrow + e + ("\n" + t + BlankLine)
         == out + (d + "\n" + b + Arrow + e + "\n" + t) + BlankLine
  {
  }

  lemma Prepend(out: string, c: string, rest: string)
    ensures out + c + BlankLine + rest == out + (c + BlankLine + rest)
  {
  }

  /** Under `Line` timing a writable line becomes its block and a blank line. */
  lemma BlockOutCore(out: string, i: nat, l: Line)
    requires Writable(l)
    ensures BlockOut(LineTimed, out, i, l) == Success(out + Core(i, l) + BlankLine)
  {
    Regroup(out, Digits(i + 1), SrtTime(l.begin.value), SrtTime(l.end.value), l.content.text);
  }

  /** `generate` writes the blocks of writable lines one after the other. */
  lemma {:induction false} GeneratedJoined(ls: seq<Line>, k: nat, out: string)
    requires AllWritable(ls) && k <= |ls|
    ensures BlocksOut(LineTimed, ls, k, out) == Success(out + JoinBlocks(Cores(ls)[k..]))
    decreases |ls| - k
  {
    var cs := Cores(ls)[k..];
    if k == |ls| {
      assert cs == [] && out + JoinBlocks(cs) == out;
    } else {
      BlockOutCore(out, k, ls[k]);
      GeneratedJoined(ls, k + 1, out + Core(k, ls[k]) + BlankLine);
      assert cs[0] == Core(k, ls[k]) && cs[1..] == Cores(ls)[k + 1..];
      Prepend(out, Core(k, ls[k]), JoinBlocks(Cores(ls)[k + 1..]));
    }
  }

  // ---------------------------------------------------------------------------
  // Splitting at blank lines
  // ---------------------------------------------------------------------------

  /** In a text laid out as a block, line breaks come one at a time and not last. */
  lemma LayoutBreaks(c: string, n: nat)
    requires BlockLayout(c, n)
    ensures SingleBreaks(c)
  {
    forall j | 0 <= j < |c| && c[j] == '\n'
      ensures j + 1 < |c| && c[j + 1] != '\n'
    {
      assert j == n || j == n + 30;
    }
  }

  /** A block has no blank line inside it. */
  lemma CoreBreaks(i: nat, l: Line)
    requires Writable(l)
    ensures SingleBreaks(Core(i, l))
  {
    var d, b, e, t := Digits(i + 1), SrtTime(l.begin.value), SrtTime(l.end.value), l.content.text;
    DigitsSpec(i + 1);
    SrtTimeShape(l.begin.value);
    SrtTimeShape(l.end.value);
    CoreLayout(Core(i, l), d, b, e, t);
    LayoutBreaks(Core(i, l), |d|);
  }

  /** A blank line first occurs right after a text with no blank line in it. */
  lemma NoBlankBefore(s: string, c: string, rest: string)
    requires s == c + BlankLine + rest && SingleBreaks(c)
    ensures forall i | 0 <= i < |c| :: !OccursAt(s, BlankLine, i)
  {
    forall i | 0 <= i < |c|
      ensures !OccursAt(s, BlankLine, i)
    {
      assert s[i] == c[i];
      if c[i] == '\n' {
        assert s[i + 1] == c[i + 1];
        assert s[i..i + 2][1] == s[i + 1];
      } else {
        assert s[i..i + 2][0] == s[i];
      }
    }
  }

  /** Splitting blocks joined by blank lines gives back the blocks, and an empty piece
      after the last blank line. */
  lemma {:induction false} SplitJoinBlocks(cs: seq<string>)
    requires forall i | 0 <= i < |cs| :: SingleBreaks(cs[i])
    ensures SplitOn(JoinBlocks(cs), BlankLine) == cs + [""]
  {
    if cs == [] {
      assert Find("", BlankLine).None?;
    } else {
      var rest := JoinBlocks(cs[1..]);
      NoBlankBefore(JoinBlocks(cs), cs[0], rest);
      SplitOnFirst(JoinBlocks(cs), BlankLine, cs[0], rest);
      SplitJoinBlocks(cs[1..]);
      assert cs == [cs[0]] + cs[1..];
    }
  }

  // ---------------------------------------------------------------------------
  // Matching and reading back
  // ---------------------------------------------------------------------------

  /** The block pattern finds the number, the two times and the text of a block. */
  lemma CoreMatch(i: nat, l: Line)
    requires Writable(l)
    ensures MatchBlock(Core(i, l)) == Some(CoreBlock(i, l))
  {
    DigitsSpec(i + 1);
    SrtTimeShape(l.begin.value);
    SrtTimeShape(l.end.value);
    MatchCore(Core(i, l), Digits(i + 1), SrtTime(l.begin.value), SrtTime(l.end.value), l.content.text);
  }

  /** Nothing in an empty piece matches. */
  lemma EmptyNoMatch()
    ensures MatchBlock("") == None
  {
  }

  /** When `pat` matches each piece before the last, and not the last, the matches are
      those of the pieces, in order. */
  lemma {:induction false} MatchesAll(bs: seq<string>, ms: seq<Block>, j: nat, pat: Pattern)
    requires |bs| == |ms| + 1 && j <= |ms| && pat(bs[|ms|]) == None
    requires forall i | j <= i < |ms| :: pat(bs[i]) == Some(ms[i])
    ensures Matches(bs, j, pat) == ms[j..]
    decreases |ms| - j
  {
    if j == |ms| {
      assert ms[j..] == [];
    } else {
      MatchesAll(bs, ms, j + 1, pat);
      assert ms[j..] == [ms[j]] + ms[j + 1..];
    }
  }

  /** The blocks the pattern matches in the split text are those of the lines. */
  lemma MatchesCores(ls: seq<Line>)
    requires AllWritable(ls)
    ensures Matches(Cores(ls) + [""], 0, MatchBlock) == CoreBlocks(ls)
  {
    var bs, ms := Cores(ls) + [""], CoreBlocks(ls);
    forall i | 0 <= i < |ms|
      ensures MatchBlock(bs[i]) == Some(ms[i])
    {
      CoreMatch(i, ls[i]);
    }
    EmptyNoMatch();
    MatchesAll(bs, ms, 0, MatchBlock);
    assert ms[0..] == ms;
  }

  /** The blocks of the lines from `k` on carry the numbers `k + 1`, `k + 2`, … */
  lemma {:induction false} CoreBlocksNumbered(ls: seq<Line>, k: nat)
    requires k <= |ls|
    ensures Numbered(CoreBlocks(ls)[k..], k)
    decreases |ls| - k
  {
    if k < |ls| {
      DigitsSpec(k + 1);
      CoreBlocksNumbered(ls, k + 1);
      var ms := CoreBlocks(ls)[k..];
      assert ms[0] == CoreBlock(k, ls[k]) && ms[1..] == CoreBlocks(ls)[k + 1..];
    }
  }

  /** `read` takes every SRT time below 100 minutes back to its value. */
  predicate ReadsBack(read: Reader)
  {
    forall m: nat | m < Limit :: read(SrtTime(m)) == Success(Some(m))
  }

  /** The times of a line's block read back, and the block becomes the line as SRT
      keeps it. */
  lemma CoreBlockRead(i: nat, l: Line, read: Reader)
    requires Writable(l) && ReadsBack(read)
    ensures Readable(CoreBlock(i, l), read) && BlockLine(CoreBlock(i, l), read) == Plain(l)
  {
    assert read(SrtTime(l.begin.value)) == Success(Some(l.begin.value));
    assert read(SrtTime(l.end.value)) == Success(Some(l.end.value));
  }

  /** Blocks whose times all read back become the lines they each stand for, in order. */
  lemma {:induction false} BlocksBecome(ms: seq<Block>, ps: seq<Line>, read: Reader)
    requires |ms| == |ps|
    requires forall i | 0 <= i < |ms| :: Readable(ms[i], read) && BlockLine(ms[i], read) == ps[i]
    ensures TimesRead(ms, read) && BlockLines(ms, read) == ps
  {
    if ms != [] {
      BlocksBecome(ms[1..], ps[1..], read);
      assert ps == [ps[0]] + ps[1..];
    }
  }

  /** `deformat_time(t, srt=True)` reads every SRT time below 100 minutes back. */
  lemma SrtReadsBack()
    ensures ReadsBack(SrtRead)
  {
    forall m: nat | m < Limit
      ensures SrtRead(SrtTime(m)) == Success(Some(m))
    {
      SrtReadTime(m);
    }
  }

  /** The text written for writable lines splits into their blocks. */
  lemma SplitCores(ls: seq<Line>)
    requires AllWritable(ls)
    ensures SplitOn(JoinBlocks(Cores(ls)), BlankLine) == Cores(ls) + [""]
  {
    var cs := Cores(ls);
    forall i | 0 <= i < |cs|
      ensures SingleBreaks(cs[i])
    {
      CoreBreaks(i, ls[i]);
    }
    SplitJoinBlocks(cs);
  }

  /** `parse` reads the text written for writable lines back as those lines, each with
      no agent and not background. */
  lemma ParseCores(ls: seq<Line>)
    requires AllWritable(ls)
    ensures Parsed(JoinBlocks(Cores(ls))) == Success(Document(LineTimed, Plains(ls)))
  {
    var ms := CoreBlocks(ls);
    SplitCores(ls);
    MatchesCores(ls);
    CoreBlocksNumbered(ls, 0);
    assert ms[0..] == ms;
    SrtReadsBack();
    forall i | 0 <= i < |ms|
      ensures Readable(ms[i], SrtRead) && BlockLine(ms[i], SrtRead) == Plains(ls)[i]
    {
      CoreBlockRead(i, ls[i], SrtRead);
    }
    BlocksBecome(ms, Plains(ls), SrtRead);
    ParsedBlocks(JoinBlocks(Cores(ls)));
  }

  /** The round trip: under `Line` timing, `parse(generate(d))` gives back every line
      of `d` with its times and text, no agent and not background, as long as the
      times stay below 100 minutes and each text is one non-empty line. */
  lemma RoundTrip(ls: seq<Line>)
    requires AllWritable(ls)
    ensures Generated(Document(LineTimed, ls)) == Success(JoinBlocks(Cores(ls)))
    ensures Parsed(JoinBlocks(Cores(ls))) == Success(Document(LineTimed, Plains(ls)))
  {
    GeneratedJoined(ls, 0, "");
    assert Cores(ls)[0..] == Cores(ls) && "" + JoinBlocks(Cores(ls)) == JoinBlocks(Cores(ls));
    ParseCores(ls);
  }
}
