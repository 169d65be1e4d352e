/**
 * lrxy/converter/srt.py: SubRip text to and from the lyric document. A block is
 * its number, a line `begin --> end` and the text, and blocks are separated by a
 * blank line. The SRT time helpers the codec imports (`format_time`,
 * `deformat_time` with `srt=True`) are not part of this model; they are taken to
 * be the two-colon, `,`-separated form `HH:MM:SS,mmm` of the LRC time codec.
 */
module Srt {
  import opened Wrappers
  import opened Text
  import opened Lyrics
  import opened TimeCodec
  import opened LrcScan

  /** The separator between the begin and end times of a block. */
  const Arrow: string := " --> "

  /** The separator between blocks. */
  const BlankLine: string := "\n\n"

  /** An SRT time: two colons and `,` before the milliseconds. */
  function SrtTime(milis: nat): string
  {
    FormatTime(milis, 2, ',')
  }

  // ---------------------------------------------------------------------------
  // Parsing: re.match(r'^(\d+)\n(TS) --> (TS)\n(.+)', block)
  // ---------------------------------------------------------------------------

  /** The four groups of a block that matches. */
  datatype Block = Block(number: string, begin: string, end: string, text: string)

  /** Where the pattern cuts a block that matches: the number ends at `n` (a line break),
      the first time at `e1` (the arrow), the second at `e2` (a line break) and the
      text at `t`. */
  datatype Cuts = Cuts(n: nat, e1: nat, e2: nat, t: nat)

  /** The arrow sits at position `i` of `b`. */
  predicate ArrowAt(b: string, i: nat)
  {
    i + 5 <= |b| && b[i] == ' ' && b[i + 1] == '-' && b[i + 2] == '-' && b[i + 3] == '>' && b[i + 4] == ' '
  }

  /** The block pattern read from the start of `b`: a digit run and a line break, a
      timestamp, the arrow, a timestamp and a line break, then a non-empty text that
      runs up to the next line break (`.` does not match one). */
  function BlockCuts(b: string): (r: Option<Cuts>)
    ensures r.Some? ==> 1 <= r.value.n < r.value.e1 && r.value.e1 + |Arrow| <= r.value.e2
                        && r.value.e2 + 1 < r.value.t <= |b|
  {
    var n := DigitRunEnd(b, 0);
    if n == 0 || n == |b| || b[n] != '\n' then None
    else
      match StampEndWith(b, n + 1, ',')
      case None => None
      case Some(e1) =>
        if !ArrowAt(b, e1) then None
        else
          match StampEndWith(b, e1 + |Arrow|, ',')
          case None => None
          case Some(e2) =>
            if e2 == |b| || b[e2] != '\n' then None
            else
              var t := IndexFrom(b, '\n', e2 + 1);
              if t == e2 + 1 then None else Some(Cuts(n, e1, e2, t))
  }

  /** `re.match` of the block pattern: its four groups. */
  function MatchBlock(b: string): Option<Block>
  {
    match BlockCuts(b)
    case None => None
    case Some(c) => Some(Groups(b, c))
  }

  /** The four groups of `b` between the cuts `c`. */
  function Groups(b: string, c: Cuts): Block
    requires c.n < c.e1 && c.e1 + |Arrow| <= c.e2 && c.e2 + 1 < c.t <= |b|
  {
    Block(b[..c.n], b[c.n + 1..c.e1], b[c.e1 + |Arrow|..c.e2], b[c.e2 + 1..c.t])
  }

  /** Where the cuts of a match fall: after a digit run, on the line breaks, at the
      arrow, and on the first line break after the times (or the end). */
  lemma CutsFacts(b: string, c: Cuts)
    requires BlockCuts(b) == Some(c)
    ensures 1 <= c.n < c.e1 && c.e1 + |Arrow| <= c.e2 && c.e2 + 1 < c.t <= |b|
    ensures DigitsIn(b, 0, c.n) && b[c.n] == '\n' && ArrowAt(b, c.e1) && b[c.e2] == '\n'
    ensures (c.t < |b| ==> b[c.t] == '\n') && forall i | c.e2 + 1 <= i < c.t :: b[i] != '\n'
  {
    DigitRunEndSpec(b, 0);
    IndexFromSpec(b, '\n', c.e2 + 1);
  }

  /** A match rebuilds the start of the block: its number (a non-empty digit run), a
      line break, the two times around the arrow, a line break and the text, which is
      the block's whole next line. */
  lemma MatchBlockShape(b: string)
    requires MatchBlock(b).Some?
    ensures var m := MatchBlock(b).value;
      var head := m.number + "\n" + m.begin + Arrow + m.end + "\n" + m.text;
      && |m.number| >= 1 && AllDigits(m.number) && |m.text| >= 1 && Lacks(m.text, '\n')
      && StartsWith(b, head) && (|head| == |b| || b[|head|] == '\n')
  {
    var c := BlockCuts(b).value;
    CutsFacts(b, c);
    GroupsShape(b, c);
  }

  lemma GroupsShape(b: string, c: Cuts)
    requires 1 <= c.n < c.e1 && c.e1 + |Arrow| <= c.e2 && c.e2 + 1 < c.t <= |b|
    requires DigitsIn(b, 0, c.n) && b[c.n] == '\n' && ArrowAt(b, c.e1) && b[c.e2] == '\n'
    requires (c.t < |b| ==> b[c.t] == '\n') && forall i | c.e2 + 1 <= i < c.t :: b[i] != '\n'
    ensures var m := Groups(b, c);
      var head := m.number + "\n" + m.begin + Arrow + m.end + "\n" + m.text;
      && |m.number| >= 1 && AllDigits(m.number) && |m.text| >= 1 && Lacks(m.text, '\n')
      && StartsWith(b, head) && (|head| == |b| || b[|head|] == '\n')
  {
    BlockHead(b, c.n, c.e1, c.e2, c.t);
  }

  /** What the loop of `parse` carries: `last_line_number` and the lines so far. */
  datatype ParseState = ParseState(last: nat, lines: seq<Line>)

  /** `int` of the number of a block; a matched block's number is always a digit run. */
  function Number(m: Block): nat
  {
    if AllDigits(m.number) then Value(m.number) else 0
  }

  /** How the times of a block are read. The loop is stated for any reader; `parse`
      uses `SrtRead`. */
  type Reader = string -> Result<Option<nat>, Error>

  /** `deformat_time(t, srt=True)`. */
  function SrtRead(t: string): Result<Option<nat>, Error>
  {
    DecodeTime(Some(t), ',')
  }

  /** What the loop of `parse` does with a block that matches: its number must be the
      next one, its times are read, and its line is appended. */
  function TakeBlock(st: ParseState, m: Block, read: Reader): Result<ParseState, Error>
  {
    if Number(m) != st.last + 1 then Failure(ParseLyric("srt"))
    else
      var begin :- read(m.begin);
      var end :- read(m.end);
      Success(ParseState(Number(m), st.lines + [Line(begin, end, None, Some(false), Text(m.text))]))
  }

  /** One iteration of the loop of `parse`: a block that does not match is skipped. */
  function BlockStep(st: ParseState, block: string): Result<ParseState, Error>
  {
    match MatchBlock(block)
    case None => Success(st)
    case Some(m) => TakeBlock(st, m, SrtRead)
  }

  /** The loop of `parse` over the blocks from `k` on. */
  function BlocksFrom(bs: seq<string>, k: nat, st: ParseState): Result<ParseState, Error>
    requires k <= |bs|
    decreases |bs| - k
  {
    if k == |bs| then Success(st)
    else
      var next :- BlockStep(st, bs[k]);
      BlocksFrom(bs, k + 1, next)
  }

  /** `parse(content)`: the timing is always `Line`. */
  function Parsed(content: string): Result<Document, Error>
  {
    var st :- BlocksFrom(SplitOn(content, BlankLine), 0, ParseState(0, []));
    Success(Document(LineTimed, st.lines))
  }

  method Parse(content: string) returns (r: Result<Document, Error>)
    ensures r == Parsed(content)
  {
    var blocks := SplitOn(content, BlankLine);
    var lines: seq<Line> := [];
    var lastLineNumber: nat := 0;
    for i := 0 to |blocks|
      invariant BlocksFrom(blocks, 0, ParseState(0, [])) == BlocksFrom(blocks, i, ParseState(lastLineNumber, lines))
    {
      ghost var before := ParseState(lastLineNumber, lines);
      var m := MatchBlock(blocks[i]);
      if m.None? {
        assert BlockStep(before, blocks[i]) == Success(before);
        continue;
      }
      var lineNumber := Number(m.value);
      if lineNumber != lastLineNumber + 1 {
        return Failure(ParseLyric("srt"));
      }
      var begin := DeformatTime(Some(m.value.begin), ',');
      if begin.Failure? {
        return Failure(begin.error);
      }
      var end := DeformatTime(Some(m.value.end), ',');
      if end.Failure? {
        return Failure(end.error);
      }
      lastLineNumber := lineNumber;
      lines := lines + [Line(begin.value, end.value, None, Some(false), Text(m.value.text))];
      assert BlockStep(before, blocks[i]) == Success(ParseState(lastLineNumber, lines));
    }
    return Success(Document(LineTimed, lines));
  }

  // ---------------------------------------------------------------------------
  // Generation
  // ---------------------------------------------------------------------------

  /** `format_time(t, srt=True)`; formatting a missing time fails. */
  function SrtStamp(t: Option<nat>): Result<string, Error>
  {
    if t.None? then Failure(MissingValue) else Success(SrtTime(t.value))
  }

  /** The loop that joins a line's words from `k` on onto `text`. */
  function JoinedFrom(ws: seq<Word>, k: nat, text: string): string
    requires k <= |ws|
    decreases |ws| - k
  {
    if k == |ws| then text
    else
      var withText := text + ws[k].text;
      JoinedFrom(ws, k + 1, if Spaced(ws, k) then withText + " " else withText)
  }

  /** What follows the time line of a block: the text and a blank line under `Line`
      timing, the joined words and a blank line under `Word` timing, nothing otherwise.
      Content of the wrong shape is an error. */
  function BlockBody(timing: Timing, line: Line): Result<string, Error>
  {
    if timing == LineTimed then
      if line.content.Text? then Success("\n" + line.content.text + BlankLine) else Failure(MissingValue)
    else if timing == WordTimed then
      match WordsOf(line.content)
      case None => Failure(MissingValue)
      case Some(ws) => Success("\n" + JoinedFrom(ws, 0, "") + BlankLine)
    else Success("")
  }

  /** The block of the line at position `i`, after `out`. */
  function BlockOut(timing: Timing, out: string, i: nat, line: Line): Result<string, Error>
  {
    var b :- SrtStamp(line.begin);
    var e :- SrtStamp(line.end);
    var body :- BlockBody(timing, line);
    Success(out + (Digits(i + 1) + "\n") + b + Arrow + e + body)
  }

  /** The loop of `generate` over the lines from `k` on. */
  function BlocksOut(timing: Timing, ls: seq<Line>, k: nat, out: string): Result<string, Error>
    requires k <= |ls|
    decreases |ls| - k
  {
    if k == |ls| then Success(out)
    else
      var next :- BlockOut(timing, out, k, ls[k]);
      BlocksOut(timing, ls, k + 1, next)
  }

  /** `generate(data)`. */
  function Generated(d: Document): Result<string, Error>
  {
    BlocksOut(d.timing, d.lyrics, 0, "")
  }

  /** The inner loop of `generate` under `Word` timing. */
  method JoinWords(words: seq<Word>) returns (text: string)
    ensures text == JoinedFrom(words, 0, "")
  {
    text := "";
    for k := 0 to |words|
      invariant JoinedFrom(words, 0, "") == JoinedFrom(words, k, text)
    {
      text := text + words[k].text;
      if !words[k].part && words[k] != words[|words| - 1] {
        text := text + " ";
      }
    }
  }

  /** One block of `generate`. */
  method AppendBlock(timing: Timing, out: string, index: nat, line: Line) returns (r: Result<string, Error>)
    ensures r == BlockOut(timing, out, index, line)
  {
    var content := out + (Digits(index + 1) + "\n");
    if line.begin.None? {
      return Failure(MissingValue);
    }
    var begin := FormatLrcTime(line.begin.value, 2, ',');
    content := content + begin;
    content := content + Arrow;
    if line.end.None? {
      return Failure(MissingValue);
    }
    var end := FormatLrcTime(line.end.value, 2, ',');
    content := content + end;
    if timing == LineTimed {
      if !line.content.Text? {
        return Failure(MissingValue);
      }
      content := content + ("\n" + line.content.text + BlankLine);
    } else if timing == WordTimed {
      var words := WordsOf(line.content);
      if words.None? {
        return Failure(MissingValue);
      }
      var text := JoinWords(words.value);
      content := content + ("\n" + text + BlankLine);
    } else {
      assert content + "" == content;
    }
    return Success(content);
  }

  method Generate(data: Document) returns (r: Result<string, Error>)
    ensures r == Generated(data)
  {
    var content := "";
    for index := 0 to |data.lyrics|
      invariant Generated(data) == BlocksOut(data.timing, data.lyrics, index, content)
    {
      var next := AppendBlock(data.timing, content, index, data.lyrics[index]);
      if next.Failure? {
        return next;
      }
      content := next.value;
    }
    return Success(content);
  }

  // ---------------------------------------------------------------------------
  // Properties of generation
  // ---------------------------------------------------------------------------

  /** The words from `k` on as `generate` spells them: each word's text, followed by a
      space when the word is not `part` and is not equal to the line's last word. */
  function Spelled(ws: seq<Word>, k: nat): string
    requires k <= |ws|
    decreases |ws| - k
  {
    if k == |ws| then "" else ws[k].text + (if Spaced(ws, k) then " " else "") + Spelled(ws, k + 1)
  }

  /** The joining loop appends the spelling of the remaining words to what it has. */
  lemma {:induction false} JoinedFromSpelled(ws: seq<Word>, k: nat, text: string)
    requires k <= |ws|
    ensures JoinedFrom(ws, k, text) == text + Spelled(ws, k)
    decreases |ws| - k
  {
    if k == |ws| {
      assert text + "" == text;
    } else {
      var sp := if Spaced(ws, k) then " " else "";
      var next := if Spaced(ws, k) then text + ws[k].text + " " else text + ws[k].text;
      assert next == text + ws[k].text + sp;
      JoinedFromSpelled(ws, k + 1, next);
      assert next + Spelled(ws, k + 1) == text + (ws[k].text + sp + Spelled(ws, k + 1));
    }
  }

  /** No space follows the last word: the spelling ends with its text. */
  lemma {:induction false} SpelledEndsWithLast(ws: seq<Word>, k: nat)
    requires k < |ws|
    ensures EndsWith(Spelled(ws, k), ws[|ws| - 1].text)
    decreases |ws| - k
  {
    var sp := if Spaced(ws, k) then " " else "";
    if k == |ws| - 1 {
      assert sp == "" && Spelled(ws, k + 1) == "";
      assert Spelled(ws, k) == ws[k].text;
      EndsWithConcat("", ws[k].text);
      assert "" + ws[k].text == ws[k].text;
    } else {
      SpelledEndsWithLast(ws, k + 1);
      EndsWithExtend(ws[k].text + sp, Spelled(ws, k + 1), ws[|ws| - 1].text);
    }
  }

  /** Under `Word` timing a block's text is the words' spelling, on one line of its own
      and followed by a blank line; under `Line` timing it is the line's text. */
  lemma BlockBodyText(timing: Timing, line: Line)
    ensures timing == WordTimed && line.content.Words? ==>
      BlockBody(timing, line) == Success("\n" + Spelled(line.content.words, 0) + BlankLine)
    ensures timing == LineTimed ==>
      (BlockBody(timing, line).Success? <==> line.content.Text?)
    ensures timing != LineTimed && timing != WordTimed ==> BlockBody(timing, line) == Success("")
  {
    if line.content.Words? {
      JoinedFromSpelled(line.content.words, 0, "");
      assert "" + Spelled(line.content.words, 0) == Spelled(line.content.words, 0);
    }
  }

  /** A line `generate` can write: both times present and content of the right shape. */
  predicate Writes(timing: Timing, line: Line)
  {
    line.begin.Some? && line.end.Some? && BlockBody(timing, line).Success?
  }

  lemma StartsWithSix(a: string, b: string, c: string, d: string, e: string, f: string)
    ensures StartsWith(a + b + c + d + e + f, a)
  {
    StartsWithConcat(a, b + c + d + e + f);
    assert a + b + c + d + e + f == a + (b + c + d + e + f);
  }

  /** `generate` can write every line from `k` on. */
  predicate WritesFrom(timing: Timing, ls: seq<Line>, k: nat)
    requires k <= |ls|
    decreases |ls| - k
  {
    k == |ls| || (Writes(timing, ls[k]) && WritesFrom(timing, ls, k + 1))
  }

  /** A block is written exactly when its line can be, and it extends what was written. */
  lemma BlockOutExtends(timing: Timing, out: string, i: nat, line: Line)
    ensures BlockOut(timing, out, i, line).Success? <==> Writes(timing, line)
    ensures BlockOut(timing, out, i, line).Success? ==> StartsWith(BlockOut(timing, out, i, line).value, out)
  {
    if Writes(timing, line) {
      StartsWithSix(out, Digits(i + 1) + "\n", SrtStamp(line.begin).value, Arrow,
        SrtStamp(line.end).value, BlockBody(timing, line).value);
    }
  }

  /** `generate` succeeds exactly when it can write every line; it then extends what it
      had. */
  lemma {:induction false} BlocksOutSucceeds(timing: Timing, ls: seq<Line>, k: nat, out: string)
    requires k <= |ls|
    ensures BlocksOut(timing, ls, k, out).Success? <==> WritesFrom(timing, ls, k)
    ensures BlocksOut(timing, ls, k, out).Success? ==> StartsWith(BlocksOut(timing, ls, k, out).value, out)
    decreases |ls| - k
  {
    if k == |ls| {
      StartsWithConcat(out, "");
      assert out + "" == out;
    } else {
      BlockOutExtends(timing, out, k, ls[k]);
      var r := BlockOut(timing, out, k, ls[k]);
      if r.Success? {
        BlocksOutSucceeds(timing, ls, k + 1, r.value);
        if BlocksOut(timing, ls, k, out).Success? {
          StartsWithTrans(BlocksOut(timing, ls, k, out).value, r.value, out);
        }
      }
    }
  }

  // ---------------------------------------------------------------------------
  // Properties of parsing
  // ---------------------------------------------------------------------------

  /** The prefix of `b` up to `t` cut at the two line breaks and around the arrow. */
  lemma BlockPieces(b: string, n: nat, e1: nat, e2: nat, t: nat)
    requires n < e1 && e1 + |Arrow| <= e2 < t <= |b|
    requires b[n] == '\n' && ArrowAt(b, e1) && b[e2] == '\n'
    ensures b[..t] == b[..n] + "\n" + b[n + 1..e1] + Arrow + b[e1 + |Arrow|..e2] + "\n" + b[e2 + 1..t]
  {
    assert b[e1..e1 + |Arrow|] == Arrow;
    assert b[..t] == b[..n] + b[n..n + 1] + b[n + 1..e1] + b[e1..e1 + |Arrow|] + b[e1 + |Arrow|..e2]
                     + b[e2..e2 + 1] + b[e2 + 1..t];
  }

  /** The groups cut out of `b` at those positions rebuild its first `t` characters. */
  lemma BlockHead(b: string, n: nat, e1: nat, e2: nat, t: nat)
    requires 1 <= n < e1 && e1 + |Arrow| <= e2 && e2 + 1 < t <= |b|
    requires b[n] == '\n' && ArrowAt(b, e1) && b[e2] == '\n'
    requires (t < |b| ==> b[t] == '\n') && forall i | e2 + 1 <= i < t :: b[i] != '\n'
    requires DigitsIn(b, 0, n)
    ensures var m := Block(b[..n], b[n + 1..e1], b[e1 + |Arrow|..e2], b[e2 + 1..t]);
      var head := m.number + "\n" + m.begin + Arrow + m.end + "\n" + m.text;
      && |m.number| >= 1 && AllDigits(m.number) && |m.text| >= 1 && Lacks(m.text, '\n')
      && StartsWith(b, head) && (|head| == |b| || b[|head|] == '\n')
  {
    BlockPieces(b, n, e1, e2, t);
    var text := b[e2 + 1..t];
    assert forall i | 0 <= i < |text| :: text[i] == b[e2 + 1 + i];
    assert forall i | 0 <= i < n :: b[..n][i] == b[i];
  }

  /** How a block is matched. The lemmas below are stated for any pattern; `parse`
      uses `MatchBlock`. */
  type Pattern = string -> Option<Block>

  /** The blocks `pat` matches, from `k` on, in order. */
  function Matches(bs: seq<string>, k: nat, pat: Pattern): (r: seq<Block>)
    requires k <= |bs|
    decreases |bs| - k
  {
    if k == |bs| then []
    else
      match pat(bs[k])
      case None => Matches(bs, k + 1, pat)
      case Some(m) => [m] + Matches(bs, k + 1, pat)
  }

  /** The blocks carry the numbers after `last`, one by one. */
  predicate Numbered(ms: seq<Block>, last: nat)
  {
    ms == [] || (Number(ms[0]) == last + 1 && Numbered(ms[1..], last + 1))
  }

  /** Both times of a block can be read. */
  predicate Readable(m: Block, read: Reader)
  {
    read(m.begin).Success? && read(m.end).Success?
  }

  /** The times of every block can be read. */
  predicate TimesRead(ms: seq<Block>, read: Reader)
  {
    ms == [] || (Readable(ms[0], read) && TimesRead(ms[1..], read))
  }

  /** The line a block becomes: its times, no agent, not background, its text. */
  function BlockLine(m: Block, read: Reader): Line
    requires Readable(m, read)
  {
    Line(read(m.begin).value, read(m.end).value, None, Some(false), Text(m.text))
  }

  /** Blocks numbered on from `last` carry the numbers `last + 1`, `last + 2`, … */
  lemma {:induction false} NumberedAt(ms: seq<Block>, last: nat, i: nat)
    requires Numbered(ms, last) && i < |ms|
    ensures Number(ms[i]) == last + i + 1
    decreases i
  {
    if i > 0 {
      NumberedAt(ms[1..], last + 1, i - 1);
    }
  }

  /** The lines of the blocks, in order. */
  function BlockLines(ms: seq<Block>, read: Reader): (r: seq<Line>)
    requires TimesRead(ms, read)
    ensures |r| == |ms|
  {
    if ms == [] then [] else [BlockLine(ms[0], read)] + BlockLines(ms[1..], read)
  }

  /** The loop of `parse` run over the matched blocks alone. */
  function StepsFrom(ms: seq<Block>, st: ParseState, read: Reader): Result<ParseState, Error>
  {
    if ms == [] then Success(st)
    else
      var next :- TakeBlock(st, ms[0], read);
      StepsFrom(ms[1..], next, read)
  }

  /** Skipping the blocks that do not match changes nothing: the loop over all blocks
      is the loop over the matched ones. */
  lemma {:induction false} BlocksFromMatches(bs: seq<string>, k: nat, st: ParseState)
    requires k <= |bs|
    ensures BlocksFrom(bs, k, st) == StepsFrom(Matches(bs, k, MatchBlock), st, SrtRead)
    decreases |bs| - k
  {
    if k < |bs| {
      match MatchBlock(bs[k])
      case None =>
        BlocksFromMatches(bs, k + 1, st);
      case Some(m) =>
        var ms := Matches(bs, k + 1, MatchBlock);
        assert ([m] + ms)[0] == m && ([m] + ms)[1..] == ms;
        if TakeBlock(st, m, SrtRead).Success? {
          BlocksFromMatches(bs, k + 1, TakeBlock(st, m, SrtRead).value);
        }
    }
  }

  /** The loop over matched blocks succeeds exactly when they are numbered on from
      `last` and all their times read; it then appends one line per block, in order. */
  lemma {:induction false} StepsRead(ms: seq<Block>, st: ParseState, read: Reader)
    ensures StepsFrom(ms, st, read).Success? <==> Numbered(ms, st.last) && TimesRead(ms, read)
    ensures StepsFrom(ms, st, read).Success? ==>
      StepsFrom(ms, st, read).value.lines == st.lines + BlockLines(ms, read)
  {
    if ms == [] {
      assert st.lines + [] == st.lines;
    } else if Number(ms[0]) == st.last + 1 && Readable(ms[0], read) {
      var line := BlockLine(ms[0], read);
      var next := ParseState(st.last + 1, st.lines + [line]);
      assert TakeBlock(st, ms[0], read) == Success(next);
      StepsRead(ms[1..], next, read);
      if TimesRead(ms[1..], read) {
        assert st.lines + [line] + BlockLines(ms[1..], read) == st.lines + ([line] + BlockLines(ms[1..], read));
      }
    }
  }

  /** `parse` succeeds exactly when the blocks that match are numbered 1, 2, 3, … and
      all their times read. Its lines are then those blocks, in order: each with the
      block's times, no agent, not background, and the first line of the block's text. */
  lemma ParsedBlocks(content: string)
    ensures var ms := Matches(SplitOn(content, BlankLine), 0, MatchBlock);
      Parsed(content).Success? <==> Numbered(ms, 0) && TimesRead(ms, SrtRead)
    ensures Parsed(content).Success? ==>
      Parsed(content).value == Document(LineTimed, BlockLines(Matches(SplitOn(content, BlankLine), 0, MatchBlock), SrtRead))
  {
    var bs := SplitOn(content, BlankLine);
    BlocksFromMatches(bs, 0, ParseState(0, []));
    StepsRead(Matches(bs, 0, MatchBlock), ParseState(0, []), SrtRead);
  }
}
