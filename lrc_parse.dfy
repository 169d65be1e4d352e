/**
 * `parse` of lrxy/converter/lrc.py: an LRC text, line by line, into a
 * document. Metadata lines are skipped; untagged lines become untimed lines
 * while no timed line came before them; the first timed line fixes the
 * document's timing and every later timed line must have the same shape.
 */
module LrcParse {
  import opened Wrappers
  import opened Text
  import opened Lyrics
  import opened TimeCodec
  import opened LrcScan
  import opened LrcLine

  /** Python's `None` in `timing`: no line has decided the timing yet. */
  const Unset: Timing := UnknownTiming(None)

  /** What the loop of `parse` carries: the timing so far and the lines so far. */
  datatype ParseState = ParseState(timing: Timing, lines: seq<Line>)

  /** `lines[-1]['end'] = begin` when that end is unset (or zero). */
  function CloseLast(lines: seq<Line>, begin: Option<nat>): seq<Line>
  {
    if |lines| > 0 && Falsy(lines[|lines| - 1].end)
    then lines[|lines| - 1 := lines[|lines| - 1].(end := begin)]
    else lines
  }

  /** The line an untagged line becomes, with no times, agent or background flag. */
  function UntimedLine(rest: string): Line
  {
    Line(None, None, None, None, Text(rest))
  }

  /** One iteration of the loop of `parse`. */
  function LineStep(st: ParseState, l: string): Result<ParseState, Error>
  {
    if IsMetadataLine(l) then Success(st)
    else
      match MatchLine(l)
      case Untagged(rest) =>
        if |st.lines| == 0 || Falsy(st.lines[|st.lines| - 1].begin) then
          Success(ParseState(if st.timing == Unset then Untimed else st.timing, st.lines + [UntimedLine(rest)]))
        else Success(st)
      case Tagged(stamp, agent, rest) =>
        if st.timing == Untimed then Failure(ParseLyric("lrc"))
        else
          var begin :- StampTime(stamp);
          var parsed :- ParsedLine(rest, agent, Some(begin), false);
          var shape := ShapeTiming(parsed.0.content);
          if st.timing != Unset && st.timing != shape then Failure(ParseLyric("lrc"))
          else Success(ParseState(shape, CloseLast(st.lines, parsed.0.begin) + [parsed.0] + parsed.1))
  }

  /** The loop of `parse` over the lines from `k` on. */
  function ParseFrom(ls: seq<string>, k: nat, st: ParseState): Result<ParseState, Error>
    requires k <= |ls|
    decreases |ls| - k
  {
    if k == |ls| then Success(st)
    else
      var next :- LineStep(st, ls[k]);
      ParseFrom(ls, k + 1, next)
  }

  /** `parse(content)`. */
  function Parsed(content: string): Result<Document, Error>
  {
    var st :- ParseFrom(SplitLines(content), 0, ParseState(Unset, []));
    Success(Document(st.timing, st.lines))
  }

  /** The loop of `parse`, appending to `lines` and patching the end of the last one. */
  method Parse(content: string) returns (r: Result<Document, Error>)
    ensures r == Parsed(content)
  {
    var timing := Unset;
    var lines: seq<Line> := [];
    var lrcLines := SplitLines(content);
    for i := 0 to |lrcLines|
      invariant ParseFrom(lrcLines, 0, ParseState(Unset, [])) == ParseFrom(lrcLines, i, ParseState(timing, lines))
    {
      ghost var before := ParseState(timing, lines);
      var lrcLine := lrcLines[i];
      if !IsMetadataLine(lrcLine) {
        var m := MatchLine(lrcLine);
        if m.Untagged? {
          if |lines| == 0 || Falsy(lines[|lines| - 1].begin) {
            if timing == Unset {
              timing := Untimed;
            }
            lines := lines + [Line(None, None, None, None, Text(m.rest))];
          }
        } else if timing == Untimed {
          return Failure(ParseLyric("lrc"));
        } else {
          var beginTime := DeformatTime(Some(m.stamp), '.');
          if beginTime.Failure? {
            return Failure(beginTime.error);
          }
          var begin := beginTime.value.value;
          assert StampTime(m.stamp) == Success(begin);
          var parsed := ParseLrcLine(m.rest, m.agent, Some(begin), false);
          if parsed.Failure? {
            return Failure(parsed.error);
          }
          var (line, bgLines) := parsed.value;
          if |lines| > 0 && Falsy(lines[|lines| - 1].end) {
            lines := lines[|lines| - 1 := lines[|lines| - 1].(end := line.begin)];
          }
          if line.content.Words? {
            lines := lines + [line];
            if timing == Unset {
              timing := WordTimed;
            } else if timing != WordTimed {
              return Failure(ParseLyric("lrc"));
            }
          } else {
            lines := lines + [line];
            if timing == Unset {
              timing := LineTimed;
            } else if timing != LineTimed {
              return Failure(ParseLyric("lrc"));
            }
          }
          lines := lines + bgLines;
        }
      }
      assert LineStep(before, lrcLine) == Success(ParseState(timing, lines));
    }
    return Success(Document(timing, lines));
  }

  // ---------------------------------------------------------------------------
  // Properties of one line
  // ---------------------------------------------------------------------------

  /** A line the metadata pattern matches changes nothing. */
  lemma MetadataSkipped(st: ParseState, l: string)
    requires MetadataShape(l)
    ensures LineStep(st, l) == Success(st)
  {
    MetadataScan(l);
  }

  /** An untagged line is kept exactly when there is no line yet or the last line's
      begin is unset (or zero); keeping it turns an unset timing into `None` timing. */
  lemma UntaggedLine(st: ParseState, l: string)
    requires !IsMetadataLine(l) && MatchLine(l).Untagged?
    ensures var kept := |st.lines| == 0 || Falsy(st.lines[|st.lines| - 1].begin);
      && (kept ==> LineStep(st, l) == Success(ParseState(
            if st.timing == Unset then Untimed else st.timing, st.lines + [UntimedLine(MatchLine(l).rest)])))
      && (!kept ==> LineStep(st, l) == Success(st))
  {
  }

  /** A timed line after untimed ones is an error. */
  lemma TimedAfterUntimed(st: ParseState, l: string)
    requires !IsMetadataLine(l) && MatchLine(l).Tagged? && st.timing == Untimed
    ensures LineStep(st, l) == Failure(ParseLyric("lrc"))
  {
  }

  /** A timed line whose shape differs from the timing already fixed is an error; one of
      the same shape keeps it. */
  lemma ShapeMustMatch(st: ParseState, l: string, begin: nat)
    requires !IsMetadataLine(l) && MatchLine(l).Tagged? && st.timing != Untimed && st.timing != Unset
    requires StampTime(MatchLine(l).stamp) == Success(begin)
    requires ParsedLine(MatchLine(l).rest, MatchLine(l).agent, Some(begin), false).Success?
    ensures var line := ParsedLine(MatchLine(l).rest, MatchLine(l).agent, Some(begin), false).value.0;
      && (ShapeTiming(line.content) != st.timing ==> LineStep(st, l) == Failure(ParseLyric("lrc")))
      && (ShapeTiming(line.content) == st.timing ==> LineStep(st, l).Success? && LineStep(st, l).value.timing == st.timing)
  {
  }

  /** A timed line whose stamp and content are read, and whose shape agrees with the
      timing (or fixes it), is accepted: the last line is closed, then the line and its
      background lines come, whatever their content. */
  lemma TimedAccepted(st: ParseState, l: string, begin: nat, line: Line, bgs: seq<Line>)
    requires !IsMetadataLine(l) && MatchLine(l).Tagged?
    requires StampTime(MatchLine(l).stamp) == Success(begin)
    requires ParsedLine(MatchLine(l).rest, MatchLine(l).agent, Some(begin), false) == Success((line, bgs))
    requires st.timing == Unset || st.timing == ShapeTiming(line.content)
    ensures LineStep(st, l) == Success(ParseState(ShapeTiming(line.content), CloseLast(st.lines, line.begin) + [line] + bgs))
  {
  }

  /** Closing the last line touches only its end, and only when that end is unset (or zero). */
  lemma CloseLastEffect(lines: seq<Line>, begin: Option<nat>)
    ensures var r := CloseLast(lines, begin);
      && |r| == |lines|
      && (forall i | 0 <= i < |lines| - 1 :: r[i] == lines[i])
      && (|lines| > 0 ==> r[|lines| - 1] == lines[|lines| - 1].(end :=
            if Falsy(lines[|lines| - 1].end) then begin else lines[|lines| - 1].end))
  {
  }

  /** A timed line closes the end of the last stored line (which may be a background
      line) with its own begin, then comes itself, then its background lines. */
  lemma TimedLine(st: ParseState, l: string)
    requires !IsMetadataLine(l) && MatchLine(l).Tagged? && LineStep(st, l).Success?
    ensures var h := MatchLine(l);
      && StampTime(h.stamp).Success?
      && ParsedLine(h.rest, h.agent, Some(StampTime(h.stamp).value), false).Success?
      && var (line, bgs) := ParsedLine(h.rest, h.agent, Some(StampTime(h.stamp).value), false).value;
         LineStep(st, l).value.lines == CloseLast(st.lines, line.begin) + [line] + bgs
         && line.agent == h.agent && line.background == Some(false)
         && forall i | 0 <= i < |bgs| :: bgs[i].background == Some(true)
  {
    var h := MatchLine(l);
    ParsedLineShape(h.rest, h.agent, Some(StampTime(h.stamp).value), false);
  }

  // ---------------------------------------------------------------------------
  // One timing mode per document
  // ---------------------------------------------------------------------------

  /** The loop's invariant: the timing is unset only before any line, `None` only over
      untimed lines, and `Word` (`Line`) timing only over foreground lines with words
      (with text). */
  predicate Consistent(st: ParseState)
  {
    && (st.timing.UnknownTiming? ==> st.timing == Unset)
    && (st.timing == Unset ==> st.lines == [])
    && (st.timing == Untimed ==> forall i | 0 <= i < |st.lines| :: st.lines[i].background == None)
    && (st.timing == WordTimed ==>
          forall i | 0 <= i < |st.lines| :: st.lines[i].background == Some(false) ==> st.lines[i].content.Words?)
    && (st.timing == LineTimed ==>
          forall i | 0 <= i < |st.lines| :: st.lines[i].background == Some(false) ==> st.lines[i].content.Text?)
  }

  /** A timed line of the right shape, with its background lines, keeps the invariant. */
  lemma ConsistentTimed(st: ParseState, line: Line, bgs: seq<Line>)
    requires Consistent(st) && st.timing != Untimed
    requires st.timing == Unset || st.timing == ShapeTiming(line.content)
    requires line.background == Some(false)
    requires forall i | 0 <= i < |bgs| :: bgs[i].background == Some(true)
    ensures Consistent(ParseState(ShapeTiming(line.content), CloseLast(st.lines, line.begin) + [line] + bgs))
  {
    var lines := CloseLast(st.lines, line.begin) + [line] + bgs;
    var timing := ShapeTiming(line.content);
    CloseLastEffect(st.lines, line.begin);
    forall i | 0 <= i < |lines| && lines[i].background == Some(false)
      ensures timing == WordTimed ==> lines[i].content.Words?
      ensures timing == LineTimed ==> lines[i].content.Text?
    {
      if i < |st.lines| {
        assert lines[i].content == st.lines[i].content && lines[i].background == st.lines[i].background;
      }
    }
  }

  lemma ConsistentStep(st: ParseState, l: string)
    requires Consistent(st) && LineStep(st, l).Success?
    ensures Consistent(LineStep(st, l).value)
    ensures st.timing != Unset ==> LineStep(st, l).value.timing == st.timing
  {
    if !IsMetadataLine(l) && MatchLine(l).Tagged? {
      TimedLine(st, l);
      var h := MatchLine(l);
      var (line, bgs) := ParsedLine(h.rest, h.agent, Some(StampTime(h.stamp).value), false).value;
      ConsistentTimed(st, line, bgs);
    }
  }

  /** Once fixed, the timing never changes, and the invariant holds to the end. */
  lemma {:induction false} ConsistentFold(ls: seq<string>, k: nat, st: ParseState)
    requires k <= |ls| && Consistent(st) && ParseFrom(ls, k, st).Success?
    ensures Consistent(ParseFrom(ls, k, st).value)
    ensures st.timing != Unset ==> ParseFrom(ls, k, st).value.timing == st.timing
    decreases |ls| - k
  {
    if k < |ls| {
      ConsistentStep(st, ls[k]);
      ConsistentFold(ls, k + 1, LineStep(st, ls[k]).value);
    }
  }

  /** A parsed LRC document has a single timing mode: a `Word` document's timed
      foreground lines all carry words, a `Line` document's all carry text, a `None`
      document has only untimed lines, and a document whose timing stayed unset has no
      lines. Background lines, and untagged lines kept after a line whose begin is
      falsy, are not checked against the timing (`LrcRoundTrip.UntimedInLineTimed`,
      `LrcRoundTrip.TextBackgroundInWordTimed`). */
  lemma ParsedConsistent(content: string)
    requires Parsed(content).Success?
    ensures var d := Parsed(content).value;
      Consistent(ParseState(d.timing, d.lyrics))
  {
    ConsistentFold(SplitLines(content), 0, ParseState(Unset, []));
  }
}
