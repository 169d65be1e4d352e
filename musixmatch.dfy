/**
 * The two normalisers of lrxy/providers/musixmatch.py that reshape Musixmatch API
 * records into the converter's `Line`/`Word` records: `richsync_parse` (word-synced
 * lyrics) and `lyric_parse` (line-synced lyrics, end times taken from the next entry).
 * The HTTP client around them is not part of this model.
 */
module Musixmatch {
  import opened Wrappers
  import opened Text
  import opened Lyrics

  /** A word of a richsync line: its times as the API sends them, as text. */
  datatype RichWord = RichWord(timestamp: string, endtime: string, part: bool, text: string)

  /** A richsync line: its times and its words. */
  datatype RichLine = RichLine(timestamp: string, endtime: string, text: seq<RichWord>)

  /** An entry of line-synced lyrics: `time.total` already in milliseconds, and the text. */
  datatype LyricEntry = LyricEntry(total: nat, text: string)

  /** `int(s)` of a time sent as text: a run of ASCII digits, anything else raises. */
  function Int(s: string): (r: Result<nat, Error>)
    ensures r.Success? <==> |s| > 0 && AllDigits(s)
    ensures r.Success? ==> AllDigits(s) && r.value == Value(s)
  {
    if |s| > 0 && AllDigits(s) then Success(Value(s)) else Failure(MalformedTime(s))
  }

  /** `int(str(n)) == n`: the decimal spelling of any number reads back as that number. */
  lemma IntOfDigits(n: nat)
    ensures Int(Digits(n)) == Success(n)
  {
    DigitsSpec(n);
  }

  /** A digit written after a readable time makes it ten times larger plus that digit;
      a character other than a digit makes it unreadable. */
  lemma IntAppend(s: string, c: char)
    requires Int(s).Success?
    ensures IsDigit(c) ==> Int(s + [c]) == Success(10 * Int(s).value + DigitValue(c))
    ensures !IsDigit(c) ==> Int(s + [c]).Failure?
  {
    if IsDigit(c) {
      ValueSnoc(s, c);
    } else {
      assert (s + [c])[|s|] == c;
    }
  }

  /** Applying `f` to the first `k` items in order, stopping at the first that raises:
      what a `for` loop appending `f(item)` to a list has built after `k` rounds. */
  function Prefix<A, B>(f: A -> Result<B, Error>, xs: seq<A>, k: nat): Result<seq<B>, Error>
    requires k <= |xs|
  {
    if k == 0 then Success([])
    else
      var done :- Prefix(f, xs, k - 1);
      var y :- f(xs[k - 1]);
      Success(done + [y])
  }

  // ---------------------------------------------------------------------------
  // richsync_parse
  // ---------------------------------------------------------------------------

  /** The record built for one richsync word. */
  function WordOf(w: RichWord): Result<Word, Error>
  {
    var begin :- Int(w.timestamp);
    var end :- Int(w.endtime);
    Success(Word(Some(begin), Some(end), w.part, w.text))
  }

  /** The record built for one richsync line: its words first, then its own times. */
  function RichLineOf(l: RichLine): Result<Line, Error>
  {
    var content :- Prefix(WordOf, l.text, |l.text|);
    var begin :- Int(l.timestamp);
    var end :- Int(l.endtime);
    Success(Line(Some(begin), Some(end), None, Some(false), Words(content)))
  }

  /** `richsync_parse(richsync)`. */
  function Richsync(rs: seq<RichLine>): Result<seq<Line>, Error>
  {
    Prefix(RichLineOf, rs, |rs|)
  }

  /** Once an item raises, the loop raises that error whatever follows. */
  lemma {:induction false} PrefixStops<A, B>(f: A -> Result<B, Error>, xs: seq<A>, k: nat, n: nat)
    requires k < n <= |xs| && Prefix(f, xs, k).Success? && f(xs[k]).Failure?
    ensures Prefix(f, xs, n) == Failure(f(xs[k]).error)
    decreases n - k
  {
    if n > k + 1 {
      PrefixStops(f, xs, k, n - 1);
    }
  }

  /** The words of one richsync line, in a loop. */
  method ReadWords(words: seq<RichWord>) returns (r: Result<seq<Word>, Error>)
    ensures r == Prefix(WordOf, words, |words|)
  {
    var content: seq<Word> := [];
    for j := 0 to |words|
      invariant Prefix(WordOf, words, j) == Success(content)
    {
      var word := WordOf(words[j]);
      if word.Failure? {
        PrefixStops(WordOf, words, j, |words|);
        return Failure(word.error);
      }
      content := content + [word.value];
    }
    return Success(content);
  }

  /** `richsync_parse(richsync)`, with its nested loops. */
  method RichsyncParse(richsync: seq<RichLine>) returns (r: Result<seq<Line>, Error>)
    ensures r == Richsync(richsync)
  {
    var lines: seq<Line> := [];
    for i := 0 to |richsync|
      invariant Prefix(RichLineOf, richsync, i) == Success(lines)
    {
      var richline := richsync[i];
      var content := ReadWords(richline.text);
      var begin := Int(richline.timestamp);
      var end := Int(richline.endtime);
      if content.Failure? || begin.Failure? || end.Failure? {
        PrefixStops(RichLineOf, richsync, i, |richsync|);
        return Failure(RichLineOf(richline).error);
      }
      var line := Line(Some(begin.value), Some(end.value), None, Some(false), Words(content.value));
      lines := lines + [line];
    }
    return Success(lines);
  }

  /** The loop builds one item per input item, in order, exactly when no item raises. */
  lemma {:induction false} PrefixSpec<A, B>(f: A -> Result<B, Error>, xs: seq<A>, k: nat)
    requires k <= |xs|
    ensures Prefix(f, xs, k).Success? <==> forall j | 0 <= j < k :: f(xs[j]).Success?
    ensures Prefix(f, xs, k).Success? ==>
      |Prefix(f, xs, k).value| == k && forall j | 0 <= j < k :: f(xs[j]) == Success(Prefix(f, xs, k).value[j])
  {
    if k > 0 {
      PrefixSpec(f, xs, k - 1);
    }
  }

  /** Every time of a richsync line and of its words is a number. */
  predicate Numeric(l: RichLine)
  {
    && Int(l.timestamp).Success? && Int(l.endtime).Success?
    && forall j | 0 <= j < |l.text| :: Int(l.text[j].timestamp).Success? && Int(l.text[j].endtime).Success?
  }

  /** One richsync word becomes a word with its times as integers, and `part` and `text`
      copied as they are. */
  predicate WordFrom(word: Word, w: RichWord)
  {
    && word.begin.Some? && Int(w.timestamp) == Success(word.begin.value)
    && word.end.Some? && Int(w.endtime) == Success(word.end.value)
    && word.part == w.part && word.text == w.text
  }

  /** One richsync line becomes a line of words, one per richsync word, in order, with its
      times as integers, no agent and not background. */
  predicate LineFrom(line: Line, l: RichLine)
  {
    && line.begin.Some? && Int(l.timestamp) == Success(line.begin.value)
    && line.end.Some? && Int(l.endtime) == Success(line.end.value)
    && line.agent == None && line.background == Some(false)
    && line.content.Words? && |line.content.words| == |l.text|
    && forall j | 0 <= j < |l.text| :: WordFrom(line.content.words[j], l.text[j])
  }

  lemma RichLineSpec(l: RichLine)
    ensures RichLineOf(l).Success? <==> Numeric(l)
    ensures RichLineOf(l).Success? ==> LineFrom(RichLineOf(l).value, l)
  {
    PrefixSpec(WordOf, l.text, |l.text|);
  }

  /** `richsync_parse` succeeds exactly when every time is a number, and then returns one
      line per richsync line, in order, each holding one word per richsync word, in order. */
  lemma RichsyncSpec(rs: seq<RichLine>)
    ensures Richsync(rs).Success? <==> forall i | 0 <= i < |rs| :: Numeric(rs[i])
    ensures Richsync(rs).Success? ==>
      |Richsync(rs).value| == |rs| && forall i | 0 <= i < |rs| :: LineFrom(Richsync(rs).value[i], rs[i])
  {
    PrefixSpec(RichLineOf, rs, |rs|);
    forall i | 0 <= i < |rs|
      ensures RichLineOf(rs[i]).Success? <==> Numeric(rs[i])
      ensures RichLineOf(rs[i]).Success? ==> LineFrom(RichLineOf(rs[i]).value, rs[i])
    {
      RichLineSpec(rs[i]);
    }
  }

  // ---------------------------------------------------------------------------
  // lyric_parse
  // ---------------------------------------------------------------------------

  /** `lines[-1]["end"] = t` on a non-empty list; nothing on an empty one. */
  function CloseLast(lines: seq<Line>, t: Option<nat>): (r: seq<Line>)
    ensures |r| == |lines|
    ensures forall i | 0 <= i < |lines| - 1 :: r[i] == lines[i]
    ensures |lines| > 0 ==> r[|lines| - 1] == lines[|lines| - 1].(end := t)
  {
    if |lines| > 0 then lines[|lines| - 1 := lines[|lines| - 1].(end := t)] else lines
  }

  /** The line built for an entry. */
  function EntryLine(entry: LyricEntry): Line
  {
    Line(Some(entry.total), None, None, Some(false), Text(entry.text))
  }

  /** One round of the loop of `lyric_parse`: the last kept line's end becomes this entry's
      begin, and the entry is kept when its text is not empty. */
  function LyricStep(lines: seq<Line>, entry: LyricEntry): seq<Line>
  {
    var closed := CloseLast(lines, Some(entry.total));
    if entry.text != "" then closed + [EntryLine(entry)] else closed
  }

  /** The lines after the first `k` entries. */
  function LyricLines(data: seq<LyricEntry>, k: nat): seq<Line>
    requires k <= |data|
  {
    if k == 0 then [] else LyricStep(LyricLines(data, k - 1), data[k - 1])
  }

  /** `lyric_parse(data)`. */
  method LyricParse(data: seq<LyricEntry>) returns (lines: seq<Line>)
    ensures lines == LyricLines(data, |data|)
  {
    lines := [];
    for k := 0 to |data|
      invariant lines == LyricLines(data, k)
    {
      var line := Line(Some(data[k].total), None, None, Some(false), Text(data[k].text));
      if |lines| > 0 {
        lines := lines[|lines| - 1 := lines[|lines| - 1].(end := line.begin)];
      }
      if line.content.text != "" {
        lines := lines + [line];
      }
    }
  }

  /** The positions of the entries with non-empty text among the first `k`, in order. */
  function Kept(data: seq<LyricEntry>, k: nat): (r: seq<nat>)
    requires k <= |data|
    ensures forall i | 0 <= i < |r| :: r[i] < k
  {
    if k == 0 then [] else Kept(data, k - 1) + (if data[k - 1].text != "" then [k - 1] else [])
  }

  /** `Kept` lists exactly the entries with non-empty text, each once, in input order. */
  lemma {:induction false} KeptSpec(data: seq<LyricEntry>, k: nat)
    requires k <= |data|
    ensures forall i | 0 <= i < |Kept(data, k)| :: data[Kept(data, k)[i]].text != ""
    ensures forall i, j | 0 <= i < j < |Kept(data, k)| :: Kept(data, k)[i] < Kept(data, k)[j]
    ensures forall p | 0 <= p < k && data[p].text != "" :: p in Kept(data, k)
  {
    if k > 0 {
      KeptSpec(data, k - 1);
    }
  }

  /** The lines after `k` entries, of which `kept` are kept: one line per kept entry, in
      order, with its begin and text, no agent and not background; each line ends where
      the next kept line begins, and the last one ends at the begin of entry `k - 1`, or
      not at all when it is that entry. */
  predicate Chain(data: seq<LyricEntry>, k: nat, kept: seq<nat>, lines: seq<Line>)
  {
    && k <= |data| && |lines| == |kept|
    && (forall i | 0 <= i < |kept| :: kept[i] < k)
    && (forall i | 0 <= i < |lines| :: lines[i].(end := None) == EntryLine(data[kept[i]]))
    && (forall i | 0 <= i < |lines| - 1 :: lines[i].end == Some(data[kept[i + 1]].total))
    && (|lines| > 0 ==>
          lines[|lines| - 1].end == if kept[|lines| - 1] == k - 1 then None else Some(data[k - 1].total))
  }

  /** A round whose entry is kept. */
  lemma ChainKeep(data: seq<LyricEntry>, k: nat, kept: seq<nat>, prev: seq<Line>)
    requires 0 < k <= |data| && Chain(data, k - 1, kept, prev) && data[k - 1].text != ""
    ensures Chain(data, k, kept + [k - 1], CloseLast(prev, Some(data[k - 1].total)) + [EntryLine(data[k - 1])])
  {
    var closed := CloseLast(prev, Some(data[k - 1].total));
    var next, kept' := closed + [EntryLine(data[k - 1])], kept + [k - 1];
    forall i | 0 <= i < |next|
      ensures next[i].(end := None) == EntryLine(data[kept'[i]])
    {
      if i < |closed| {
        assert next[i].(end := None) == prev[i].(end := None);
      }
    }
    forall i | 0 <= i < |next| - 1
      ensures next[i].end == Some(data[kept'[i + 1]].total)
    {
      if i + 1 < |closed| {
        assert next[i] == prev[i];
      }
    }
  }

  /** A round whose entry is dropped. */
  lemma ChainDrop(data: seq<LyricEntry>, k: nat, kept: seq<nat>, prev: seq<Line>)
    requires 0 < k <= |data| && Chain(data, k - 1, kept, prev)
    ensures Chain(data, k, kept, CloseLast(prev, Some(data[k - 1].total)))
  {
    var closed := CloseLast(prev, Some(data[k - 1].total));
    forall i | 0 <= i < |closed|
      ensures closed[i].(end := None) == EntryLine(data[kept[i]])
    {
      assert closed[i].(end := None) == prev[i].(end := None);
    }
  }

  lemma {:induction false} LyricLinesChained(data: seq<LyricEntry>, k: nat)
    requires k <= |data|
    ensures Chain(data, k, Kept(data, k), LyricLines(data, k))
  {
    if k > 0 {
      LyricLinesChained(data, k - 1);
      if data[k - 1].text != "" {
        ChainKeep(data, k, Kept(data, k - 1), LyricLines(data, k - 1));
      } else {
        ChainDrop(data, k, Kept(data, k - 1), LyricLines(data, k - 1));
      }
    }
  }

  /** `lyric_parse` returns one line per entry with non-empty text (see `KeptSpec`), in
      input order, with its begin and text, no agent and not background. Every kept line
      but the last ends where the next one begins; the last one has no end exactly when
      it is the final entry, and otherwise ends at the begin of the final entry. */
  lemma LyricParseSpec(data: seq<LyricEntry>)
    ensures |LyricLines(data, |data|)| == |Kept(data, |data|)|
    ensures var lines, kept := LyricLines(data, |data|), Kept(data, |data|);
      forall i | 0 <= i < |lines| ::
        && lines[i].begin == Some(data[kept[i]].total) && lines[i].content == Text(data[kept[i]].text)
        && lines[i].agent == None && lines[i].background == Some(false)
    ensures var lines := LyricLines(data, |data|);
      forall i | 0 <= i < |lines| - 1 :: lines[i].end == lines[i + 1].begin
    ensures var lines, kept := LyricLines(data, |data|), Kept(data, |data|);
      |lines| > 0 ==>
        && (lines[|lines| - 1].end == None <==> kept[|lines| - 1] == |data| - 1)
        && (lines[|lines| - 1].end != None ==> lines[|lines| - 1].end == Some(data[|data| - 1].total))
  {
    var lines, kept := LyricLines(data, |data|), Kept(data, |data|);
    LyricLinesChained(data, |data|);
    forall i | 0 <= i < |lines|
      ensures lines[i].begin == Some(data[kept[i]].total) && lines[i].content == Text(data[kept[i]].text)
      ensures lines[i].agent == None && lines[i].background == Some(false)
    {
      assert lines[i].(end := None) == EntryLine(data[kept[i]]);
    }
    forall i | 0 <= i < |lines| - 1
      ensures lines[i].end == lines[i + 1].begin
    {
      assert lines[i + 1].(end := None) == EntryLine(data[kept[i + 1]]);
    }
  }
}
