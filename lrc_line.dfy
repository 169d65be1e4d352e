/**
 * `parseLrcLine` of lrxy/converter/lrc.py: one LRC line's text after its line
 * tag becomes a `Line` and the background lines of its `[bg:...]` spans.
 *
 * The background spans are removed from the text first, each parsed as a line
 * of its own; then every `<ts>text` word tag closes the previous word, fixes the
 * line's begin if none was given, and adds a word when its text is non-empty.
 */
module LrcLine {
  import opened Wrappers
  import opened Text
  import opened Lyrics
  import opened TimeCodec
  import opened LrcScan

  /** `deformatTime` of a timestamp the scanners matched. */
  function StampTime(stamp: string): Result<nat, Error>
  {
    match DecodeTime(Some(stamp), '.')
    case Success(t) => if t.Some? then Success(t.value) else Failure(MalformedTime(stamp))
    case Failure(e) => Failure(e)
  }

  // ---------------------------------------------------------------------------
  // The word loop
  // ---------------------------------------------------------------------------

  /** What the word loop carries from one tag to the next: the line's begin, the
      words so far and the time of the last tag (0 before the first). */
  datatype WordState = WordState(begin: Option<nat>, words: seq<Word>, time: nat)

  /** The word a tag with non-empty text adds: glued to the next word (`part`) unless
      its text ends with a space, and that one space dropped. */
  function NewWord(t: nat, text: string): Word
  {
    Word(Some(t), None, !EndsWith(text, " "), RemoveSuffix(text, " "))
  }

  /** One `<ts>text` tag at time `t`. */
  function TagStep(st: WordState, t: nat, text: string): WordState
  {
    var n := |st.words|;
    var closed :=
      if n > 0 && Falsy(st.words[n - 1].end) then st.words[n - 1 := st.words[n - 1].(end := Some(t))]
      else st.words;
    var begin := if n == 0 && Falsy(st.begin) then Some(t) else st.begin;
    WordState(begin, if text == "" then closed else closed + [NewWord(t, text)], t)
  }

  /** The word loop over the tags from `k` on. */
  function WordsFrom(tags: seq<Tag>, k: nat, st: WordState): Result<WordState, Error>
    requires k <= |tags|
    decreases |tags| - k
  {
    if k == |tags| then Success(st)
    else
      var t :- StampTime(tags[k].stamp);
      WordsFrom(tags, k + 1, TagStep(st, t, tags[k].text))
  }

  /** The line built from `content` once its background spans are gone: its words, or
      the text itself when no tag added a word. */
  function WordLine(content: string, agent: Option<string>, begin: Option<nat>, background: bool)
    : Result<Line, Error>
  {
    var st :- WordsFrom(WordTags(content), 0, WordState(begin, [], 0));
    Success(Line(st.begin, if st.time != 0 then Some(st.time) else None, agent, Some(background),
                 if st.words == [] then Text(content) else Words(st.words)))
  }

  // ---------------------------------------------------------------------------
  // Background spans
  // ---------------------------------------------------------------------------

  predicate NonEmptyMatches(spans: seq<Span>)
  {
    forall k | 0 <= k < |spans| :: |spans[k].whole| > 0
  }

  lemma {:induction false} SpansNonEmpty(s: string, i: nat)
    requires i <= |s|
    ensures NonEmptyMatches(BgScan(s, i))
    decreases |s| - i
  {
    if i < |s| {
      var withSpace := if s[i] == ' ' then SpanFrom(s, i, i + 1) else None;
      var m := if withSpace.Some? then withSpace else SpanFrom(s, i, i);
      match m
      case Some((span, next)) => SpansNonEmpty(s, next);
      case None => SpansNonEmpty(s, i + 1);
    }
  }

  /** `content` with every occurrence of the matches from `k` on removed, one match
      after the other. */
  function StripFrom(content: string, spans: seq<Span>, k: nat): string
    requires k <= |spans| && NonEmptyMatches(spans)
    decreases |spans| - k
  {
    if k == |spans| then content else StripFrom(RemoveAll(content, spans[k].whole), spans, k + 1)
  }

  /** The background line of a span: its inner text read as a word line, with neither
      agent nor begin time, marked as background. */
  function BgLineOf(span: Span): Result<Line, Error>
  {
    WordLine(span.inner, None, None, true)
  }

  /** The background lines of the spans, in order, stopping at the first that fails. */
  function BgLines(spans: seq<Span>): Result<seq<Line>, Error>
  {
    Collect(BgLineOf, spans, 0, [])
  }

  /** `parseLrcLine(content, agent, begin, background)`: the line and its background lines. */
  function ParsedLine(content: string, agent: Option<string>, begin: Option<nat>, background: bool)
    : Result<(Line, seq<Line>), Error>
  {
    var spans := BgSpans(content);
    SpansNonEmpty(content, 0);
    var bgs :- BgLines(spans);
    var line :- WordLine(StripFrom(content, spans, 0), agent, begin, background);
    Success((line, bgs))
  }

  // ---------------------------------------------------------------------------
  // The imperative parser
  // ---------------------------------------------------------------------------

  /** One iteration of the word loop: a stamp that cannot be read stops it. */
  lemma WordsStep(tags: seq<Tag>, k: nat, st: WordState)
    requires k < |tags|
    ensures WordsFrom(tags, k, st)
         == (match StampTime(tags[k].stamp)
             case Success(t) => WordsFrom(tags, k + 1, TagStep(st, t, tags[k].text))
             case Failure(e) => Failure(e))
  {
  }

  /** `deformatTime` of a tag's stamp, which the word loop needs to be a time. */
  method ReadStamp(stamp: string) returns (r: Result<nat, Error>)
    ensures r == StampTime(stamp)
  {
    var d := DeformatTime(Some(stamp), '.');
    if d.Failure? {
      return Failure(d.error);
    }
    return Success(d.value.value);
  }

  /** One tag of the word loop: the last word, still open, ends at `t`; with no word yet
      and no begin, `t` becomes the line's begin; a tag with text adds its word. */
  method ApplyTag(begin: Option<nat>, words: seq<Word>, time: nat, t: nat, wordText: string)
    returns (begin': Option<nat>, words': seq<Word>)
    ensures WordState(begin', words', t) == TagStep(WordState(begin, words, time), t, wordText)
  {
    begin', words' := begin, words;
    if |words'| > 0 {
      if Falsy(words'[|words'| - 1].end) {
        words' := words'[|words'| - 1 := words'[|words'| - 1].(end := Some(t))];
      }
    } else if Falsy(begin') {
      begin' := Some(t);
    }
    if wordText != "" {
      words' := words' + [Word(Some(t), None, !EndsWith(wordText, " "), RemoveSuffix(wordText, " "))];
    }
  }

  /** The word loop of `parseLrcLine`, on text already free of background spans. */
  method ParseWords(lineContent: string, agent: Option<string>, beginTime: Option<nat>, background: bool)
    returns (r: Result<Line, Error>)
    ensures r == WordLine(lineContent, agent, beginTime, background)
  {
    var tags := WordTags(lineContent);
    var begin := beginTime;
    var words: seq<Word> := [];
    var time: nat := 0;
    for i := 0 to |tags|
      invariant WordsFrom(tags, 0, WordState(beginTime, [], 0)) == WordsFrom(tags, i, WordState(begin, words, time))
    {
      WordsStep(tags, i, WordState(begin, words, time));
      var t := ReadStamp(tags[i].stamp);
      if t.Failure? {
        return Failure(t.error);
      }
      begin, words := ApplyTag(begin, words, time, t.value, tags[i].text);
      time := t.value;
    }
    var end: Option<nat> := None;
    if time != 0 {
      end := Some(time);
    }
    var content := if words == [] then Text(lineContent) else Words(words);
    return Success(Line(begin, end, agent, Some(background), content));
  }

  /** The background loop of `parseLrcLine`: the background lines of the spans and the
      text with every span removed. */
  method ParseBackground(lineContent: string) returns (r: Result<(seq<Line>, string), Error>)
    ensures var spans := BgSpans(lineContent);
      NonEmptyMatches(spans)
      && r == (match BgLines(spans)
               case Success(bgs) => Success((bgs, StripFrom(lineContent, spans, 0)))
               case Failure(e) => Failure(e))
  {
    var spans := BgSpans(lineContent);
    SpansNonEmpty(lineContent, 0);
    var bgLines: seq<Line> := [];
    var content := lineContent;
    for i := 0 to |spans|
      invariant BgLines(spans) == Collect(BgLineOf, spans, i, bgLines)
      invariant StripFrom(lineContent, spans, 0) == StripFrom(content, spans, i)
    {
      var bg := ParseWords(spans[i].inner, None, None, true);
      if bg.Failure? {
        assert Collect(BgLineOf, spans, i, bgLines) == Failure(bg.error);
        return Failure(bg.error);
      }
      assert Collect(BgLineOf, spans, i, bgLines) == Collect(BgLineOf, spans, i + 1, bgLines + [bg.value]);
      assert StripFrom(content, spans, i) == StripFrom(RemoveAll(content, spans[i].whole), spans, i + 1);
      bgLines := bgLines + [bg.value];
      content := RemoveAll(content, spans[i].whole);
    }
    return Success((bgLines, content));
  }

  /** `parseLrcLine`: background spans first, then the word loop on what is left. */
  method ParseLrcLine(lineContent: string, agent: Option<string>, beginTime: Option<nat>, background: bool)
    returns (r: Result<(Line, seq<Line>), Error>)
    ensures r == ParsedLine(lineContent, agent, beginTime, background)
  {
    var stripped := ParseBackground(lineContent);
    if stripped.Failure? {
      return Failure(stripped.error);
    }
    var (bgLines, content) := stripped.value;
    var line := ParseWords(content, agent, beginTime, background);
    if line.Failure? {
      return Failure(line.error);
    }
    return Success((line.value, bgLines));
  }

  // ---------------------------------------------------------------------------
  // Properties of one tag
  // ---------------------------------------------------------------------------

  /** A tag closes the previous word when that word's end is unset (or zero), adds a
      word only for non-empty text, and fixes the line's begin only before the
      first word and only when none was given. */
  lemma TagStepEffect(st: WordState, t: nat, text: string)
    ensures var r := TagStep(st, t, text); var n := |st.words|;
      && |r.words| == (if text == "" then n else n + 1)
      && (forall i | 0 <= i < n - 1 :: r.words[i] == st.words[i])
      && (n > 0 ==> r.words[n - 1] == st.words[n - 1].(end :=
            if Falsy(st.words[n - 1].end) then Some(t) else st.words[n - 1].end))
      && (Truthy(st.begin) || n > 0 ==> r.begin == st.begin)
      && (n == 0 && Falsy(st.begin) ==> r.begin == Some(t))
      && r.time == t
  {
  }

  /** A new word keeps its text but for the one trailing space that `part == false`
      stands for. */
  lemma NewWordText(t: nat, text: string)
    ensures var w := NewWord(t, text);
      w.begin == Some(t) && w.end == None
      && (w.part <==> !EndsWith(text, " "))
      && text == w.text + (if w.part then "" else " ")
  {
    RemoveSuffixSpec(text, " ");
  }

  // ---------------------------------------------------------------------------
  // Properties of the word loop
  // ---------------------------------------------------------------------------

  /** The number of tags from `k` on whose text is non-empty. */
  function TextCount(tags: seq<Tag>, k: nat): nat
    requires k <= |tags|
    decreases |tags| - k
  {
    if k == |tags| then 0 else (if tags[k].text == "" then 0 else 1) + TextCount(tags, k + 1)
  }

  /** Every tag with non-empty text adds exactly one word; empty ones add none. */
  lemma {:induction false} WordCount(tags: seq<Tag>, k: nat, st: WordState)
    requires k <= |tags| && WordsFrom(tags, k, st).Success?
    ensures |WordsFrom(tags, k, st).value.words| == |st.words| + TextCount(tags, k)
    decreases |tags| - k
  {
    if k < |tags| {
      var t := StampTime(tags[k].stamp).value;
      WordCount(tags, k + 1, TagStep(st, t, tags[k].text));
    }
  }

  /** After the loop, the time is that of the last tag. */
  lemma {:induction false} LastTagTime(tags: seq<Tag>, k: nat, st: WordState)
    requires k < |tags| && WordsFrom(tags, k, st).Success?
    ensures StampTime(tags[|tags| - 1].stamp).Success?
    ensures WordsFrom(tags, k, st).value.time == StampTime(tags[|tags| - 1].stamp).value
    decreases |tags| - k
  {
    var t := StampTime(tags[k].stamp).value;
    if k + 1 < |tags| {
      LastTagTime(tags, k + 1, TagStep(st, t, tags[k].text));
    }
  }

  /** Every word has a begin, and every word but the last has an end: the tag after
      a word always closes it. */
  predicate Chained(ws: seq<Word>)
  {
    (forall i | 0 <= i < |ws| :: ws[i].begin.Some?)
    && (forall i | 0 <= i < |ws| - 1 :: ws[i].end.Some?)
  }

  lemma {:induction false} ChainedWords(tags: seq<Tag>, k: nat, st: WordState)
    requires k <= |tags| && WordsFrom(tags, k, st).Success? && Chained(st.words)
    ensures Chained(WordsFrom(tags, k, st).value.words)
    decreases |tags| - k
  {
    if k < |tags| {
      var t := StampTime(tags[k].stamp).value;
      var next := TagStep(st, t, tags[k].text);
      assert Chained(next.words) by {
        TagStepEffect(st, t, tags[k].text);
      }
      ChainedWords(tags, k + 1, next);
    }
  }

  /** A begin given to the loop (and not zero) is kept. */
  lemma {:induction false} BeginKept(tags: seq<Tag>, k: nat, st: WordState)
    requires k <= |tags| && WordsFrom(tags, k, st).Success? && Truthy(st.begin)
    ensures WordsFrom(tags, k, st).value.begin == st.begin
    decreases |tags| - k
  {
    if k < |tags| {
      var t := StampTime(tags[k].stamp).value;
      BeginKept(tags, k + 1, TagStep(st, t, tags[k].text));
    }
  }

  /** Without a begin, the first tag's time becomes the begin (when it is not zero). */
  lemma FirstTagBegin(tags: seq<Tag>, st: WordState, t: nat)
    requires 0 < |tags| && WordsFrom(tags, 0, st).Success? && Falsy(st.begin) && st.words == []
    requires StampTime(tags[0].stamp) == Success(t) && t != 0
    ensures WordsFrom(tags, 0, st).value.begin == Some(t)
  {
    BeginKept(tags, 1, TagStep(st, t, tags[0].text));
  }

  // ---------------------------------------------------------------------------
  // Properties of a parsed line
  // ---------------------------------------------------------------------------

  /** The line's begin, end and content as the tags of its text decide them: words
      exactly when some tag has text, else the text verbatim; an end exactly when the
      last tag's time is not zero. */
  lemma WordLineShape(content: string, agent: Option<string>, begin: Option<nat>, background: bool)
    requires WordLine(content, agent, begin, background).Success?
    ensures var line := WordLine(content, agent, begin, background).value;
      var tags := WordTags(content);
      && line.agent == agent && line.background == Some(background)
      && (line.content.Words? <==> TextCount(tags, 0) > 0)
      && (line.content.Words? ==> |line.content.words| == TextCount(tags, 0) && Chained(line.content.words))
      && (line.content.Text? ==> line.content.text == content)
      && (tags == [] ==> line.end == None)
      && (tags != [] ==> StampTime(tags[|tags| - 1].stamp).Success?
                         && line.end == (var t := StampTime(tags[|tags| - 1].stamp).value;
                                         if t != 0 then Some(t) else None))
      && (Truthy(begin) ==> line.begin == begin)
  {
    var tags := WordTags(content);
    var init := WordState(begin, [], 0);
    WordCount(tags, 0, init);
    ChainedWords(tags, 0, init);
    if tags != [] {
      LastTagTime(tags, 0, init);
    }
    if Truthy(begin) {
      BeginKept(tags, 0, init);
    }
  }

  /** Text without any `<` has no word tags, so it stays as it is. */
  lemma PlainTextLine(content: string, agent: Option<string>, begin: Option<nat>, background: bool)
    requires Lacks(content, '<')
    ensures WordLine(content, agent, begin, background)
         == Success(Line(begin, None, agent, Some(background), Text(content)))
  {
    NoTagsWithoutOpen(content, 0);
  }

  /** The background lines come one per span, in order, each marked as background
      and without agent. */
  lemma BgLinesShape(spans: seq<Span>)
    requires BgLines(spans).Success?
    ensures var r := BgLines(spans).value;
      && |r| == |spans|
      && forall i | 0 <= i < |r| ::
           WordLine(spans[i].inner, None, None, true) == Success(r[i])
           && r[i].background == Some(true) && r[i].agent == None
  {
    var r := BgLines(spans).value;
    CollectEach(BgLineOf, spans, r);
    forall i | 0 <= i < |r|
      ensures WordLine(spans[i].inner, None, None, true) == Success(r[i])
              && r[i].background == Some(true) && r[i].agent == None
    {
      assert BgLineOf(spans[i]) == Success(r[i]);
    }
  }

  /** A span's inner text holds no further span, so the recursive `parseLrcLine` call
      on it yields no background lines of its own: reading it as a plain word line
      loses nothing. */
  lemma NestedSpansDiscarded(content: string, k: nat)
    requires k < |BgSpans(content)|
    ensures var inner := BgSpans(content)[k].inner;
      BgSpans(inner) == []
      && ParsedLine(inner, None, None, true)
         == (match WordLine(inner, None, None, true)
             case Success(l) => Success((l, []))
             case Failure(e) => Failure(e))
  {
    var inner := BgSpans(content)[k].inner;
    SpanInnersLackClose(content, 0);
    NoSpansWithoutClose(inner, 0);
  }

  /** `parseLrcLine`: the parent keeps the agent and background flag it was given, and
      one background line follows per `[bg:...]` span, in order. */
  lemma ParsedLineShape(content: string, agent: Option<string>, begin: Option<nat>, background: bool)
    requires ParsedLine(content, agent, begin, background).Success?
    ensures var (line, bgs) := ParsedLine(content, agent, begin, background).value;
      var spans := BgSpans(content);
      && line.agent == agent && line.background == Some(background)
      && |bgs| == |spans|
      && forall i | 0 <= i < |bgs| ::
           WordLine(spans[i].inner, None, None, true) == Success(bgs[i])
           && bgs[i].background == Some(true) && bgs[i].agent == None
  {
    var spans := BgSpans(content);
    SpansNonEmpty(content, 0);
    BgLinesShape(spans);
    WordLineShape(StripFrom(content, spans, 0), agent, begin, background);
  }

  /** Without any span the word loop sees the text as it was given. */
  lemma NoSpansNoStrip(content: string, agent: Option<string>, begin: Option<nat>, background: bool)
    requires BgSpans(content) == []
    ensures ParsedLine(content, agent, begin, background)
         == (match WordLine(content, agent, begin, background)
             case Success(l) => Success((l, []))
             case Failure(e) => Failure(e))
  {
  }
}
