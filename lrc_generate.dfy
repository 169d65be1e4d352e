/**
 * `generate` of lrxy/converter/lrc.py: a document back into LRC text.
 *
 * Under `None` timing every line is its text and a line break. Otherwise each
 * line opens with its `[begin]` tag (and `vN:` agent) or, for a background
 * line, turns the previous line break into ` [bg:`; a bare `[end]` marker line
 * comes first whenever the previous line's end leaves a gap; words are written
 * `<begin>text<end>`, a tag the output already ends with not being repeated.
 */
module LrcGenerate {
  import opened Wrappers
  import opened Text
  import opened Lyrics
  import opened TimeCodec

  /** `formatLrcTime(t)`; formatting a missing time fails, as `None % 1000` does. */
  function Stamp(t: Option<nat>): Result<string, Error>
  {
    if t.None? then Failure(MissingValue) else Success(FormatTime(t.value, 1, '.'))
  }

  /** The bare marker line `[mm:ss.xxx]` that closes a gap. */
  function Marker(t: nat): string
  {
    "[" + FormatTime(t, 1, '.') + "]\n"
  }

  /** A word or line-end tag `<mm:ss.xxx>`. */
  function AngleTag(stamp: string): string
  {
    "<" + stamp + ">"
  }

  /** What the loop of `generate` carries: the text so far and `lastLineEnd`. */
  datatype GenState = GenState(out: string, lastEnd: Option<nat>)

  /** `lrcContent[:-1]`. */
  function DropLast(s: string): string
  {
    if s == [] then s else s[..|s| - 1]
  }

  /** One word: its begin tag unless the output already ends with it, its text, the
      space after it, and its end tag. */
  function WordOut(out: string, ws: seq<Word>, k: nat): Result<string, Error>
    requires k < |ws|
  {
    var b :- Stamp(ws[k].begin);
    var head := if EndsWith(out, AngleTag(b)) then out else out + AngleTag(b);
    var withText := head + ws[k].text;
    var spaced := if Spaced(ws, k) then withText + " " else withText;
    var e :- Stamp(ws[k].end);
    Success(spaced + AngleTag(e))
  }

  /** The loop over a line's words from `k` on. */
  function WordsOut(out: string, ws: seq<Word>, k: nat): Result<string, Error>
    requires k <= |ws|
    decreases |ws| - k
  {
    if k == |ws| then Success(out)
    else
      var next :- WordOut(out, ws, k);
      WordsOut(next, ws, k + 1)
  }

  /** The opening of a line: its `[begin]` tag and agent, or ` [bg:` in place of the
      previous line break. */
  function Opening(out: string, line: Line): Result<string, Error>
  {
    if !IsBackground(line.background) then
      var b :- Stamp(line.begin);
      var tagged := out + "[" + b + "]";
      Success(if Present(line.agent) then tagged + line.agent.value + ":" else tagged)
    else Success(DropLast(out) + " [bg:")
  }

  /** The body of a line: its text under `Line` timing, else its words and the line-end
      tag unless the output already ends with it. */
  function Body(timing: Timing, out: string, line: Line): Result<string, Error>
  {
    if timing == LineTimed then
      if line.content.Text? then Success(out + line.content.text) else Failure(MissingValue)
    else
      match WordsOf(line.content)
      case None => Failure(MissingValue)
      case Some(ws) =>
        var words :- WordsOut(out, ws, 0);
        var e :- Stamp(line.end);
        Success(if EndsWith(words, AngleTag(e)) then words else words + AngleTag(e))
  }

  /** A gap marker leaves a gap: the previous end is set, non-zero and not the next begin. */
  predicate LeavesGap(lastEnd: Option<nat>, begin: Option<nat>)
  {
    Truthy(lastEnd) && lastEnd != begin
  }

  /** The output with the marker of `lastEnd` when it leaves a gap before `begin`. */
  function WithGapMarker(out: string, lastEnd: Option<nat>, begin: Option<nat>): string
  {
    if LeavesGap(lastEnd, begin) then out + Marker(lastEnd.value) else out
  }

  /** One iteration of the loop of `generate`. */
  function LineOut(timing: Timing, st: GenState, line: Line): Result<GenState, Error>
  {
    if timing == Untimed then
      if line.content.Text? then Success(GenState(st.out + line.content.text + "\n", st.lastEnd))
      else Failure(MissingValue)
    else
      var head :- Opening(WithGapMarker(st.out, st.lastEnd, line.begin), line);
      var body :- Body(timing, head, line);
      Success(GenState((if IsBackground(line.background) then body + "]" else body) + "\n", line.end))
  }

  /** The loop of `generate` over the lines from `k` on. */
  function LinesOut(timing: Timing, ls: seq<Line>, k: nat, st: GenState): Result<GenState, Error>
    requires k <= |ls|
    decreases |ls| - k
  {
    if k == |ls| then Success(st)
    else
      var next :- LineOut(timing, st, ls[k]);
      LinesOut(timing, ls, k + 1, next)
  }

  /** `generate(data)`: the lines, then a marker for the last line's end when it leaves a
      gap. `lastLineEnd` is truthy only after a line, so the last line exists then. */
  function Generated(d: Document): Result<string, Error>
  {
    var st :- LinesOut(d.timing, d.lyrics, 0, GenState("", Some(0)));
    Success(if |d.lyrics| > 0 then WithGapMarker(st.out, st.lastEnd, d.lyrics[|d.lyrics| - 1].begin) else st.out)
  }

  // ---------------------------------------------------------------------------
  // The imperative generator
  // ---------------------------------------------------------------------------

  /** `word` written after `out`: the loop body of the word loop. */
  method AppendWord(out: string, words: seq<Word>, k: nat) returns (r: Result<string, Error>)
    requires k < |words|
    ensures r == WordOut(out, words, k)
  {
    var word := words[k];
    if word.begin.None? {
      return Failure(MissingValue);
    }
    var beginText := FormatLrcTime(word.begin.value, 1, '.');
    var wordBegin := "<" + beginText + ">";
    var lrcContent := out;
    if !EndsWith(lrcContent, wordBegin) {
      lrcContent := lrcContent + wordBegin;
    }
    lrcContent := lrcContent + word.text;
    if Spaced(words, k) {
      lrcContent := lrcContent + " ";
    }
    if word.end.None? {
      return Failure(MissingValue);
    }
    var endText := FormatLrcTime(word.end.value, 1, '.');
    var wordEnd := "<" + endText + ">";
    return Success(lrcContent + wordEnd);
  }

  /** The word loop of `generate`. */
  method AppendWords(lrcContent: string, words: seq<Word>) returns (r: Result<string, Error>)
    ensures r == WordsOut(lrcContent, words, 0)
  {
    var out := lrcContent;
    for k := 0 to |words|
      invariant WordsOut(lrcContent, words, 0) == WordsOut(out, words, k)
    {
      var next := AppendWord(out, words, k);
      if next.Failure? {
        return next;
      }
      out := next.value;
    }
    return Success(out);
  }

  /** The words and the line-end tag of a line under word timing. */
  method AppendBody(timing: Timing, lrcContent: string, line: Line) returns (r: Result<string, Error>)
    ensures r == Body(timing, lrcContent, line)
  {
    if timing == LineTimed {
      if !line.content.Text? {
        return Failure(MissingValue);
      }
      return Success(lrcContent + line.content.text);
    }
    var words := WordsOf(line.content);
    if words.None? {
      return Failure(MissingValue);
    }
    var withWords := AppendWords(lrcContent, words.value);
    if withWords.Failure? {
      return Failure(withWords.error);
    }
    var out := withWords.value;
    if line.end.None? {
      return Failure(MissingValue);
    }
    var endText := FormatLrcTime(line.end.value, 1, '.');
    var lineEnd := "<" + endText + ">";
    if !EndsWith(out, lineEnd) {
      out := out + lineEnd;
    }
    return Success(out);
  }

  /** The `[begin]` tag and agent of a line, or ` [bg:` for a background line. */
  method AppendOpening(lrcContent: string, line: Line) returns (r: Result<string, Error>)
    ensures r == Opening(lrcContent, line)
  {
    var out := lrcContent;
    if !IsBackground(line.background) {
      if line.begin.None? {
        return Failure(MissingValue);
      }
      var beginText := FormatLrcTime(line.begin.value, 1, '.');
      out := out + "[" + beginText + "]";
      if Present(line.agent) {
        out := out + line.agent.value + ":";
      }
    } else {
      out := DropLast(out) + " [bg:";
    }
    return Success(out);
  }

  /** One line of `generate`: the loop body of the line loop. */
  method AppendLine(timing: Timing, lrcContent: string, lastLineEnd: Option<nat>, line: Line)
    returns (r: Result<GenState, Error>)
    ensures r == LineOut(timing, GenState(lrcContent, lastLineEnd), line)
  {
    if timing == Untimed {
      if !line.content.Text? {
        return Failure(MissingValue);
      }
      return Success(GenState(lrcContent + line.content.text + "\n", lastLineEnd));
    }
    var out := lrcContent;
    if Truthy(lastLineEnd) && lastLineEnd != line.begin {
      var endText := FormatLrcTime(lastLineEnd.value, 1, '.');
      out := out + ("[" + endText + "]\n");
    }
    assert out == WithGapMarker(lrcContent, lastLineEnd, line.begin);
    var head := AppendOpening(out, line);
    if head.Failure? {
      return Failure(head.error);
    }
    out := head.value;
    var body := AppendBody(timing, out, line);
    if body.Failure? {
      return Failure(body.error);
    }
    out := body.value;
    if IsBackground(line.background) {
      out := out + "]";
    }
    return Success(GenState(out + "\n", line.end));
  }

  /** `generate`: the loop over the lines, then the trailing marker. */
  method Generate(data: Document) returns (r: Result<string, Error>)
    ensures r == Generated(data)
  {
    var lrcContent := "";
    var lastLineEnd: Option<nat> := Some(0);
    for i := 0 to |data.lyrics|
      invariant LinesOut(data.timing, data.lyrics, 0, GenState("", Some(0)))
             == LinesOut(data.timing, data.lyrics, i, GenState(lrcContent, lastLineEnd))
    {
      var next := AppendLine(data.timing, lrcContent, lastLineEnd, data.lyrics[i]);
      if next.Failure? {
        return Failure(next.error);
      }
      lrcContent, lastLineEnd := next.value.out, next.value.lastEnd;
    }
    if Truthy(lastLineEnd) && lastLineEnd != data.lyrics[|data.lyrics| - 1].begin {
      var endText := FormatLrcTime(lastLineEnd.value, 1, '.');
      lrcContent := lrcContent + ("[" + endText + "]\n");
    }
    return Success(lrcContent);
  }

  // ---------------------------------------------------------------------------
  // Properties of the output
  // ---------------------------------------------------------------------------

  /** The text of an untimed document: each line's text and a line break; a line with
      words cannot be written so. */
  function UntimedText(ls: seq<Line>, k: nat): Result<string, Error>
    requires k <= |ls|
    decreases |ls| - k
  {
    if k == |ls| then Success("")
    else if ls[k].content.Text? then
      var rest :- UntimedText(ls, k + 1);
      Success(ls[k].content.text + "\n" + rest)
    else Failure(MissingValue)
  }

  lemma {:induction false} UntimedLines(ls: seq<Line>, k: nat, st: GenState)
    requires k <= |ls|
    ensures LinesOut(Untimed, ls, k, st)
         == (match UntimedText(ls, k)
             case Success(t) => Success(GenState(st.out + t, st.lastEnd))
             case Failure(e) => Failure(e))
    decreases |ls| - k
  {
    if k == |ls| {
      assert st.out + "" == st.out;
    } else if ls[k].content.Text? {
      var text := ls[k].content.text;
      var next := GenState(st.out + text + "\n", st.lastEnd);
      UntimedLines(ls, k + 1, next);
      if UntimedText(ls, k + 1).Success? {
        var rest := UntimedText(ls, k + 1).value;
        assert next.out + rest == st.out + (text + "\n" + rest);
      }
    }
  }

  /** Under `None` timing the output is each line's text followed by a line break, and
      no marker is ever written. */
  lemma UntimedGenerated(d: Document)
    requires d.timing == Untimed
    ensures Generated(d) == UntimedText(d.lyrics, 0)
  {
    UntimedLines(d.lyrics, 0, GenState("", Some(0)));
    if UntimedText(d.lyrics, 0).Success? {
      assert "" + UntimedText(d.lyrics, 0).value == UntimedText(d.lyrics, 0).value;
    }
  }

  /** Under any other timing the loop ends with `lastLineEnd` the last line's end. */
  lemma {:induction false} LastEndAfterLines(timing: Timing, ls: seq<Line>, k: nat, st: GenState)
    requires timing != Untimed && k < |ls| && LinesOut(timing, ls, k, st).Success?
    ensures LinesOut(timing, ls, k, st).value.lastEnd == ls[|ls| - 1].end
    decreases |ls| - k
  {
    var next := LineOut(timing, st, ls[k]).value;
    if k + 1 < |ls| {
      LastEndAfterLines(timing, ls, k + 1, next);
    }
  }

  /** The trailing marker: after the lines comes `[end]` of the last line exactly when its
      end is set, non-zero and differs from its begin. */
  lemma TrailingMarker(d: Document)
    requires d.timing != Untimed && |d.lyrics| > 0
    requires LinesOut(d.timing, d.lyrics, 0, GenState("", Some(0))).Success?
    ensures var body := LinesOut(d.timing, d.lyrics, 0, GenState("", Some(0))).value.out;
      var last := d.lyrics[|d.lyrics| - 1];
      Generated(d) == Success(if LeavesGap(last.end, last.begin) then body + Marker(last.end.value) else body)
  {
    LastEndAfterLines(d.timing, d.lyrics, 0, GenState("", Some(0)));
  }

  /** A word's output ends with its end tag. */
  lemma WordOutEnds(out: string, ws: seq<Word>, k: nat)
    requires k < |ws| && WordOut(out, ws, k).Success?
    ensures Stamp(ws[k].end).Success?
    ensures EndsWith(WordOut(out, ws, k).value, AngleTag(Stamp(ws[k].end).value))
    ensures StartsWith(WordOut(out, ws, k).value, out)
  {
    var b := Stamp(ws[k].begin).value;
    var head := if EndsWith(out, AngleTag(b)) then out else out + AngleTag(b);
    var withText := head + ws[k].text;
    var spaced := if Spaced(ws, k) then withText + " " else withText;
    EndsWithConcat(spaced, AngleTag(Stamp(ws[k].end).value));
    StartsWithConcat(out, AngleTag(b));
    StartsWithConcat(head, ws[k].text);
    StartsWithTrans(withText, head, out);
    StartsWithConcat(withText, " ");
    StartsWithTrans(spaced, withText, out);
    StartsWithConcat(spaced, AngleTag(Stamp(ws[k].end).value));
    StartsWithTrans(spaced + AngleTag(Stamp(ws[k].end).value), spaced, out);
  }

  /** Two words that meet (the first ends when the second begins) share one tag: the
      second word's begin tag is not written again. */
  lemma SharedWordTag(out: string, ws: seq<Word>, k: nat)
    requires k + 1 < |ws| && WordOut(out, ws, k).Success? && ws[k].end == ws[k + 1].begin
    requires WordOut(WordOut(out, ws, k).value, ws, k + 1).Success?
    ensures var mid := WordOut(out, ws, k).value; var w := ws[k + 1];
      var withText := mid + w.text;
      WordOut(mid, ws, k + 1)
        == Success((if Spaced(ws, k + 1) then withText + " " else withText) + AngleTag(Stamp(w.end).value))
  {
    WordOutEnds(out, ws, k);
  }

  /** The word loop leaves the output it started from in place. */
  lemma {:induction false} WordsOutKeeps(out: string, ws: seq<Word>, k: nat)
    requires k < |ws| && WordsOut(out, ws, k).Success?
    ensures StartsWith(WordsOut(out, ws, k).value, out)
    decreases |ws| - k
  {
    var next := WordOut(out, ws, k).value;
    assert WordsOut(out, ws, k) == WordsOut(next, ws, k + 1);
    assert StartsWith(next, out) by { WordOutEnds(out, ws, k); }
    if k + 1 == |ws| {
      assert WordsOut(next, ws, k + 1) == Success(next);
    } else {
      WordsOutKeeps(next, ws, k + 1);
      StartsWithTrans(WordsOut(next, ws, k + 1).value, next, out);
    }
  }

  /** The word loop, started at a word, ends with the last word's end tag. */
  lemma {:induction false} WordsOutLast(out: string, ws: seq<Word>, k: nat)
    requires k < |ws| && WordsOut(out, ws, k).Success?
    ensures Stamp(ws[|ws| - 1].end).Success?
    ensures EndsWith(WordsOut(out, ws, k).value, AngleTag(Stamp(ws[|ws| - 1].end).value))
    decreases |ws| - k
  {
    var next := WordOut(out, ws, k).value;
    assert WordsOut(out, ws, k) == WordsOut(next, ws, k + 1);
    if k + 1 == |ws| {
      WordOutEnds(out, ws, k);
      assert WordsOut(next, ws, k + 1) == Success(next);
    } else {
      WordsOutLast(next, ws, k + 1);
    }
  }

  /** The word loop leaves the output it started from in place and, when there is a
      word, ends with the last word's end tag. */
  lemma WordsOutEnds(out: string, ws: seq<Word>, k: nat)
    requires k <= |ws| && WordsOut(out, ws, k).Success?
    ensures StartsWith(WordsOut(out, ws, k).value, out)
    ensures k < |ws| ==> (Stamp(ws[|ws| - 1].end).Success?
                       && EndsWith(WordsOut(out, ws, k).value, AngleTag(Stamp(ws[|ws| - 1].end).value)))
  {
    if k < |ws| {
      WordsOutKeeps(out, ws, k);
      WordsOutLast(out, ws, k);
    } else {
      assert out[..|out|] == out;
    }
  }

  /** When the last word ends where the line ends, the line-end tag is not written again. */
  lemma LineEndNotRepeated(timing: Timing, out: string, line: Line)
    requires timing != LineTimed && line.content.Words? && |line.content.words| > 0
    requires line.content.words[|line.content.words| - 1].end == line.end
    requires WordsOut(out, line.content.words, 0).Success?
    ensures Body(timing, out, line) == WordsOut(out, line.content.words, 0)
  {
    WordsOutEnds(out, line.content.words, 0);
  }

  /** A line's body leaves the opening before it in place. */
  lemma BodyExtends(timing: Timing, out: string, line: Line)
    requires Body(timing, out, line).Success?
    ensures StartsWith(Body(timing, out, line).value, out)
  {
    if timing == LineTimed {
      StartsWithConcat(out, line.content.text);
    } else {
      var ws := WordsOf(line.content).value;
      WordsOutEnds(out, ws, 0);
      var words := WordsOut(out, ws, 0).value;
      var tag := AngleTag(Stamp(line.end).value);
      StartsWithConcat(words, tag);
      StartsWithTrans(words + tag, words, out);
    }
  }

  /** The opening of a foreground line is `[begin]` (then the agent), that of a
      background line replaces the previous line break with ` [bg:`. */
  lemma OpeningStarts(out: string, line: Line)
    requires Opening(out, line).Success?
    ensures !IsBackground(line.background) ==> line.begin.Some?
    ensures StartsWith(Opening(out, line).value,
      if IsBackground(line.background) then DropLast(out) + " [bg:"
      else out + "[" + FormatTime(line.begin.value, 1, '.') + "]")
  {
    var head := Opening(out, line).value;
    if IsBackground(line.background) {
      assert head[..|head|] == head;
    } else {
      var tagged := out + "[" + FormatTime(line.begin.value, 1, '.') + "]";
      if Present(line.agent) {
        StartsWithConcat(tagged, line.agent.value + ":");
        assert head == tagged + (line.agent.value + ":");
      } else {
        assert head[..|head|] == head;
      }
    }
  }

  /** A timed line: a gap marker first when the previous end leaves a gap, then `[begin]`
      for a foreground line or ` [bg:` in place of the previous line break for a
      background one, which also closes with `]`; every line ends with a line break
      and makes its end the new `lastLineEnd`. */
  lemma TimedLineOut(timing: Timing, st: GenState, line: Line)
    requires timing != Untimed && LineOut(timing, st, line).Success?
    ensures !IsBackground(line.background) ==> line.begin.Some?
    ensures var r := LineOut(timing, st, line).value;
      var out := WithGapMarker(st.out, st.lastEnd, line.begin);
      && r.lastEnd == line.end
      && EndsWith(r.out, if IsBackground(line.background) then "]\n" else "\n")
      && StartsWith(r.out, if IsBackground(line.background) then DropLast(out) + " [bg:"
                           else out + "[" + FormatTime(line.begin.value, 1, '.') + "]")
  {
    var out := WithGapMarker(st.out, st.lastEnd, line.begin);
    var head := Opening(out, line).value;
    var body := Body(timing, head, line).value;
    OpeningStarts(out, line);
    BodyExtends(timing, head, line);
    var prefix := if IsBackground(line.background) then DropLast(out) + " [bg:"
                  else out + "[" + FormatTime(line.begin.value, 1, '.') + "]";
    StartsWithTrans(body, head, prefix);
    if IsBackground(line.background) {
      AppendKeepsPrefix(body, "]", prefix);
      AppendKeepsPrefix(body + "]", "\n", prefix);
      assert body + "]" + "\n" == body + "]\n";
      EndsWithConcat(body, "]\n");
    } else {
      AppendKeepsPrefix(body, "\n", prefix);
      EndsWithConcat(body, "\n");
    }
  }
}
