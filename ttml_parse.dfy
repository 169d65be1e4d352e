/**
 * Reading TTML (lrxy/converter/ttml.py `parse`, `parseTtmlWbwLine`, `parseTtmlLine`):
 * the text is repaired, handed to the XML parser, and every `<p>` of the tree becomes
 * lyric lines according to the root's `timing` attribute.
 */
module TtmlParse {
  import opened Wrappers
  import opened Lyrics
  import opened TimeCodec
  import opened TtmlTree
  import opened TtmlRepair

  /** `deformatTime(tag.get(key))`: `.` stands before the milliseconds. */
  function TimeAttr(e: Element, key: string): Result<Option<nat>, Error>
  {
    DecodeTime(Get(e, key), '.')
  }

  /** A word's `part` flag: it has no tail, or a tail without a space. */
  predicate Glued(tail: string)
  {
    tail == "" || ' ' !in tail
  }

  /** What `parseTtmlWbwLine` has gathered while it walks the children of a `<p>`: the
      line's begin so far, its words and the lines of its background children. */
  datatype Walk = Walk(begin: Option<nat>, words: seq<Word>, bgs: seq<Line>)

  /** `parseTtmlWbwLine`: the line of a word-timed `<p>` and the lines of the background
      `<span>`s inside it. */
  function WbwLine(e: Element): Result<(Line, seq<Line>), Error>
    decreases e, 1
  {
    var begin :- TimeAttr(e, "begin");
    var end :- TimeAttr(e, "end");
    var w :- WalkFrom(e, 0, Walk(begin, [], []));
    var last :- EndFallback(end, w.words);
    Success((Line(w.begin, last, Get(e, AgentAttr), Some(IsBg(e)), Words(w.words)), w.bgs))
  }

  /** The loop over the children of `e` from `k` on. */
  function WalkFrom(e: Element, k: nat, w: Walk): Result<Walk, Error>
    requires k <= |e.children|
    decreases e, 0, |e.children| - k
  {
    if k == |e.children| then Success(w)
    else
      var next :- Step(w, e.children[k]);
      WalkFrom(e, k + 1, next)
  }

  /** One child: a background `<span>` is read as a line of its own, whose own background
      lines are dropped; any other child is a word, and the first word with a non-zero
      begin gives the line a begin when it has none. */
  function Step(w: Walk, c: Element): Result<Walk, Error>
    decreases c, 2
  {
    if IsBg(c) then
      var bg :- WbwLine(c);
      Success(w.(bgs := w.bgs + [bg.0]))
    else
      var begin :- TimeAttr(c, "begin");
      var end :- TimeAttr(c, "end");
      Success(Walk(
        if Falsy(w.begin) && Truthy(begin) then begin else w.begin,
        w.words + [Word(begin, end, Glued(c.tail), c.text)],
        w.bgs))
  }

  /** A line without an end takes the end of its last word, if that one is non-zero; a
      line without words has no last word, and indexing it raises. */
  function EndFallback(end: Option<nat>, words: seq<Word>): Result<Option<nat>, Error>
  {
    if Truthy(end) then Success(end)
    else if words == [] then Failure(EmptyWordList)
    else if Truthy(words[|words| - 1].end) then Success(words[|words| - 1].end)
    else Success(end)
  }

  /** `parseTtmlLine`: a line-timed `<p>` and its text. */
  function LineOf(e: Element): Result<Line, Error>
  {
    var begin :- TimeAttr(e, "begin");
    var end :- TimeAttr(e, "end");
    Success(Line(begin, end, Get(e, AgentAttr), Some(IsBg(e)), Text(e.text)))
  }

  /** A `<p>` of an untimed document: its text and nothing else. */
  function UntimedLine(e: Element): Line
  {
    Line(None, None, None, None, Text(e.text))
  }

  /** The root's `timing` attribute. */
  function TimingOf(t: Option<string>): Timing
  {
    if t == Some("Word") then WordTimed
    else if t == Some("Line") then LineTimed
    else if t == Some("None") then Untimed
    else UnknownTiming(t)
  }

  /** The lines one `<p>` contributes under a timing; an unknown timing reads no line. */
  function Contribution(timing: Timing, p: Element): Result<seq<Line>, Error>
  {
    match timing
    case WordTimed =>
      var r :- WbwLine(p);
      Success([r.0] + r.1)
    case LineTimed =>
      var l :- LineOf(p);
      Success([l])
    case Untimed => Success([UntimedLine(p)])
    case UnknownTiming(_) => Success([])
  }

  /** The loop over the paragraphs from `k` on, appending to `acc`. */
  function LinesFrom(timing: Timing, ps: seq<Element>, k: nat, acc: seq<Line>): Result<seq<Line>, Error>
    requires k <= |ps|
    decreases |ps| - k
  {
    if k == |ps| then Success(acc)
    else
      var here :- Contribution(timing, ps[k]);
      LinesFrom(timing, ps, k + 1, acc + here)
  }

  /** A text parser: the XML parser the codec hands the repaired text to. */
  type XmlReader = string -> Result<Element, Error>

  /** What `parse` reads from a parsed tree: the timing and the paragraphs' lines. */
  function ReadTree(root: Element): Result<Document, Error>
  {
    var timing := TimingOf(Get(root, TimingAttr));
    var lines :- LinesFrom(timing, ParagraphsOf(root), 0, []);
    Success(Document(timing, lines))
  }

  /** `parse`: repair the text, parse it, read the tree. */
  function Parsed(input: string, xml: XmlReader): Result<Document, Error>
  {
    var root :- xml(Repair(input));
    ReadTree(root)
  }

  // ---------------------------------------------------------------------------
  // The codec's loops
  // ---------------------------------------------------------------------------

  /** `parseTtmlWbwLine`, walking the children one by one. */
  method ParseWbwLine(e: Element) returns (r: Result<(Line, seq<Line>), Error>)
    ensures r == WbwLine(e)
    decreases e
  {
    var begin :- TimeAttr(e, "begin");
    var end :- TimeAttr(e, "end");
    var lineBegin := begin;
    var words: seq<Word> := [];
    var bgs: seq<Line> := [];
    for i := 0 to |e.children|
      invariant WalkFrom(e, 0, Walk(begin, [], [])) == WalkFrom(e, i, Walk(lineBegin, words, bgs))
    {
      var c := e.children[i];
      if IsBg(c) {
        var sub := ParseWbwLine(c);
        if sub.Failure? {
          return Failure(sub.error);
        }
        bgs := bgs + [sub.value.0];
      } else {
        var wordBegin := TimeAttr(c, "begin");
        if wordBegin.Failure? {
          return Failure(wordBegin.error);
        }
        if Falsy(lineBegin) && Truthy(wordBegin.value) {
          lineBegin := wordBegin.value;
        }
        var wordEnd := TimeAttr(c, "end");
        if wordEnd.Failure? {
          return Failure(wordEnd.error);
        }
        words := words + [Word(wordBegin.value, wordEnd.value, Glued(c.tail), c.text)];
      }
    }
    var lineEnd := end;
    if Falsy(end) {
      if words == [] {
        return Failure(EmptyWordList);
      }
      var lastWordEnd := words[|words| - 1].end;
      if Truthy(lastWordEnd) {
        lineEnd := lastWordEnd;
      }
    }
    return Success((Line(lineBegin, lineEnd, Get(e, AgentAttr), Some(IsBg(e)), Words(words)), bgs));
  }

  /** The loop of `parse` under word timing: each paragraph's line, then the lines of its
      background spans. */
  method ReadWordLines(ps: seq<Element>) returns (r: Result<seq<Line>, Error>)
    ensures r == LinesFrom(WordTimed, ps, 0, [])
  {
    var lines: seq<Line> := [];
    for i := 0 to |ps|
      invariant LinesFrom(WordTimed, ps, 0, []) == LinesFrom(WordTimed, ps, i, lines)
    {
      var line := ParseWbwLine(ps[i]);
      if line.Failure? {
        return Failure(line.error);
      }
      lines := lines + ([line.value.0] + line.value.1);
    }
    return Success(lines);
  }

  /** The loop of `parse` under line timing. */
  method ReadLines(ps: seq<Element>) returns (r: Result<seq<Line>, Error>)
    ensures r == LinesFrom(LineTimed, ps, 0, [])
  {
    var lines: seq<Line> := [];
    for i := 0 to |ps|
      invariant LinesFrom(LineTimed, ps, 0, []) == LinesFrom(LineTimed, ps, i, lines)
    {
      var line := LineOf(ps[i]);
      if line.Failure? {
        return Failure(line.error);
      }
      lines := lines + [line.value];
    }
    return Success(lines);
  }

  /** The loop of `parse` for an untimed document. */
  method ReadUntimedLines(ps: seq<Element>) returns (lines: seq<Line>)
    ensures LinesFrom(Untimed, ps, 0, []) == Success(lines)
  {
    lines := [];
    for i := 0 to |ps|
      invariant LinesFrom(Untimed, ps, 0, []) == LinesFrom(Untimed, ps, i, lines)
    {
      lines := lines + [UntimedLine(ps[i])];
    }
  }

  /** `parse`: the loop that matches the timing, or no line at all for another timing. */
  method Parse(input: string, xml: XmlReader) returns (r: Result<Document, Error>)
    ensures r == Parsed(input, xml)
  {
    var root :- xml(Repair(input));
    r := ReadParagraphs(root);
  }

  /** The part of `parse` after the XML parser. */
  method ReadParagraphs(root: Element) returns (r: Result<Document, Error>)
    ensures r == ReadTree(root)
  {
    var timing := TimingOf(Get(root, TimingAttr));
    var ps := ParagraphsOf(root);
    var lines: Result<seq<Line>, Error>;
    if timing == WordTimed {
      lines := ReadWordLines(ps);
    } else if timing == LineTimed {
      lines := ReadLines(ps);
    } else if timing == Untimed {
      var ls := ReadUntimedLines(ps);
      lines := Success(ls);
    } else {
      UnknownReadsNothing(timing, ps, 0, []);
      lines := Success([]);
    }
    if lines.Failure? {
      return Failure(lines.error);
    }
    return Success(Document(timing, lines.value));
  }

  // ---------------------------------------------------------------------------
  // Properties of a word-timed paragraph
  // ---------------------------------------------------------------------------

  /** A time attribute read as an optional time, `None` where it cannot be read. */
  function Decoded(e: Element, key: string): Option<nat>
  {
    var t := TimeAttr(e, key);
    if t.Success? then t.value else None
  }

  /** The word a child that is not a background `<span>` stands for. */
  function WordOf(c: Element): Word
  {
    Word(Decoded(c, "begin"), Decoded(c, "end"), Glued(c.tail), c.text)
  }

  /** The words of the children from `k` on: every child that is not a background span,
      in document order. */
  function WordsIn(e: Element, k: nat): seq<Word>
    requires k <= |e.children|
    decreases |e.children| - k
  {
    if k == |e.children| then []
    else (if IsBg(e.children[k]) then [] else [WordOf(e.children[k])]) + WordsIn(e, k + 1)
  }

  /** The line a background child stands for. */
  function BgLineOf(c: Element): Line
  {
    var r := WbwLine(c);
    if r.Success? then r.value.0 else Line(None, None, None, None, Words([]))
  }

  /** The lines of the background children from `k` on, in document order. */
  function BgLinesIn(e: Element, k: nat): seq<Line>
    requires k <= |e.children|
    decreases |e.children| - k
  {
    if k == |e.children| then []
    else (if IsBg(e.children[k]) then [BgLineOf(e.children[k])] else []) + BgLinesIn(e, k + 1)
  }

  /** A child the walk can read: a background span that parses, or a word whose times
      can be read. */
  predicate ChildOk(c: Element)
  {
    if IsBg(c) then WbwLine(c).Success?
    else TimeAttr(c, "begin").Success? && TimeAttr(c, "end").Success?
  }

  /** The first non-zero begin among `ws`, else `fallback`. */
  function FirstBegin(ws: seq<Word>, fallback: Option<nat>): Option<nat>
  {
    if ws == [] then fallback
    else if Truthy(ws[0].begin) then ws[0].begin
    else FirstBegin(ws[1..], fallback)
  }

  /** The begin a walk ends with: the begin it started with if that is non-zero, else the
      first non-zero begin of a word after it. */
  function BeginAfter(begin: Option<nat>, ws: seq<Word>): Option<nat>
  {
    if Truthy(begin) then begin else FirstBegin(ws, begin)
  }

  /** One more word seen by the walk. */
  lemma BeginPrepend(begin: Option<nat>, x: Word, rest: seq<Word>)
    ensures BeginAfter(if Falsy(begin) && Truthy(x.begin) then x.begin else begin, rest)
      == BeginAfter(begin, [x] + rest)
  {
    assert ([x] + rest)[1..] == rest;
  }

  /** A child is read exactly when it can be. */
  lemma StepOk(w: Walk, c: Element)
    ensures Step(w, c).Success? <==> ChildOk(c)
    ensures Step(w, c).Success? ==>
      var next := Step(w, c).value;
      && next.words == w.words + (if IsBg(c) then [] else [WordOf(c)])
      && next.bgs == w.bgs + (if IsBg(c) then [BgLineOf(c)] else [])
      && next.begin == (if !IsBg(c) && Falsy(w.begin) && Truthy(WordOf(c).begin) then WordOf(c).begin else w.begin)
  {
  }

  /** The walk fails exactly when some child cannot be read. */
  lemma {:induction false} WalkOk(e: Element, k: nat, w: Walk)
    requires k <= |e.children|
    ensures WalkFrom(e, k, w).Success? <==> forall j | k <= j < |e.children| :: ChildOk(e.children[j])
    decreases |e.children| - k
  {
    if k < |e.children| {
      StepOk(w, e.children[k]);
      if Step(w, e.children[k]).Success? {
        WalkOk(e, k + 1, Step(w, e.children[k]).value);
      }
    }
  }

  /** The sequence algebra of one step of the walk, over plain values. */
  lemma WalkChain(w: Walk, next: Walk, v: Walk, bg: bool, x: Word, l: Line, restW: seq<Word>, restB: seq<Line>)
    requires next.words == w.words + (if bg then [] else [x])
    requires next.bgs == w.bgs + (if bg then [l] else [])
    requires next.begin == (if !bg && Falsy(w.begin) && Truthy(x.begin) then x.begin else w.begin)
    requires v.words == next.words + restW && v.bgs == next.bgs + restB
    requires v.begin == BeginAfter(next.begin, restW)
    ensures v.words == w.words + ((if bg then [] else [x]) + restW)
    ensures v.bgs == w.bgs + ((if bg then [l] else []) + restB)
    ensures v.begin == BeginAfter(w.begin, (if bg then [] else [x]) + restW)
  {
    if !bg {
      BeginPrepend(w.begin, x, restW);
    } else {
      assert [] + restW == restW;
    }
  }

  /** The words a walk gathers are those of the non-background children, in order, and
      the lines it gathers those of the background children; its begin is the one it
      started with if non-zero, else the first non-zero begin of a word. */
  lemma {:induction false} WalkSpec(e: Element, k: nat, w: Walk)
    requires k <= |e.children| && WalkFrom(e, k, w).Success?
    ensures var v := WalkFrom(e, k, w).value;
      && v.words == w.words + WordsIn(e, k)
      && v.bgs == w.bgs + BgLinesIn(e, k)
      && v.begin == BeginAfter(w.begin, WordsIn(e, k))
    decreases |e.children| - k
  {
    if k == |e.children| {
      assert w.words + [] == w.words && w.bgs + [] == w.bgs;
    } else {
      var c := e.children[k];
      StepOk(w, c);
      var next := Step(w, c).value;
      WalkSpec(e, k + 1, next);
      WalkChain(w, next, WalkFrom(e, k, w).value, IsBg(c), WordOf(c), BgLineOf(c),
        WordsIn(e, k + 1), BgLinesIn(e, k + 1));
    }
  }

  /** A word-timed `<p>` is read exactly when its own times, every word's times and every
      background span can be read, and it has a non-zero end or a word to take one from. */
  lemma WbwLineOk(e: Element)
    ensures WbwLine(e).Success? <==>
      && TimeAttr(e, "begin").Success? && TimeAttr(e, "end").Success?
      && (forall j | 0 <= j < |e.children| :: ChildOk(e.children[j]))
      && (Truthy(TimeAttr(e, "end").value) || WordsIn(e, 0) != [])
  {
    if TimeAttr(e, "begin").Success? && TimeAttr(e, "end").Success? {
      var w := Walk(TimeAttr(e, "begin").value, [], []);
      WalkOk(e, 0, w);
      if WalkFrom(e, 0, w).Success? {
        WalkSpec(e, 0, w);
        assert WalkFrom(e, 0, w).value.words == WordsIn(e, 0);
      }
    }
  }

  /** The line of a word-timed `<p>`: its words are the children that are not background
      spans, in order, each glued to the next exactly when its tail holds no space; its
      begin is its own unless that is zero or absent, then the first non-zero word begin;
      its end is its own unless that is zero or absent, then the last word's end when
      non-zero. The background spans become separate lines, in order. */
  lemma WbwLineSpec(e: Element)
    requires WbwLine(e).Success?
    ensures TimeAttr(e, "begin").Success? && TimeAttr(e, "end").Success?
    ensures Truthy(TimeAttr(e, "end").value) || WordsIn(e, 0) != []
    ensures var begin, end, ws := TimeAttr(e, "begin").value, TimeAttr(e, "end").value, WordsIn(e, 0);
      && WbwLine(e).value.0 == Line(
           BeginAfter(begin, ws),
           if Truthy(end) || !Truthy(ws[|ws| - 1].end) then end else ws[|ws| - 1].end,
           Get(e, AgentAttr), Some(IsBg(e)), Words(ws))
      && WbwLine(e).value.1 == BgLinesIn(e, 0)
  {
    var w := Walk(TimeAttr(e, "begin").value, [], []);
    WalkSpec(e, 0, w);
    var v := WalkFrom(e, 0, w).value;
    assert v.words == WordsIn(e, 0) && v.bgs == BgLinesIn(e, 0);
    WbwLineOk(e);
  }

  /** Every line read from a background span is marked as background. */
  lemma {:induction false} BgLinesMarked(e: Element, k: nat)
    requires k <= |e.children|
    requires forall j | k <= j < |e.children| :: ChildOk(e.children[j])
    ensures forall l | l in BgLinesIn(e, k) :: l.background == Some(true)
    decreases |e.children| - k
  {
    if k < |e.children| {
      BgLinesMarked(e, k + 1);
    }
  }

  // ---------------------------------------------------------------------------
  // Properties of a document
  // ---------------------------------------------------------------------------

  /** Under an unknown timing no paragraph is read. */
  lemma {:induction false} UnknownReadsNothing(timing: Timing, ps: seq<Element>, k: nat, acc: seq<Line>)
    requires timing.UnknownTiming? && k <= |ps|
    ensures LinesFrom(timing, ps, k, acc) == Success(acc)
    decreases |ps| - k
  {
    if k < |ps| {
      assert Contribution(timing, ps[k]) == Success([]);
      assert acc + [] == acc;
      UnknownReadsNothing(timing, ps, k + 1, acc);
    }
  }

  /** The paragraphs are read exactly when each of them can be. */
  lemma {:induction false} LinesOk(timing: Timing, ps: seq<Element>, k: nat, acc: seq<Line>)
    requires k <= |ps|
    ensures LinesFrom(timing, ps, k, acc).Success? <==>
      forall j | k <= j < |ps| :: Contribution(timing, ps[j]).Success?
    decreases |ps| - k
  {
    if k < |ps| && Contribution(timing, ps[k]).Success? {
      LinesOk(timing, ps, k + 1, acc + Contribution(timing, ps[k]).value);
    }
  }

  /** Where every paragraph gives one line, the lines read are those lines, in order,
      after what was read before. */
  lemma {:induction false} OneLineEach(timing: Timing, ps: seq<Element>, k: nat, acc: seq<Line>)
    requires k <= |ps| && LinesFrom(timing, ps, k, acc).Success?
    requires timing.LineTimed? || timing.Untimed?
    ensures var v := LinesFrom(timing, ps, k, acc).value;
      && |v| == |acc| + (|ps| - k) && v[..|acc|] == acc
      && forall j | k <= j < |ps| :: Contribution(timing, ps[j]) == Success([v[|acc| + (j - k)]])
    decreases |ps| - k
  {
    if k < |ps| {
      var here := Contribution(timing, ps[k]).value;
      var next := acc + here;
      OneLineEach(timing, ps, k + 1, next);
      var v := LinesFrom(timing, ps, k, acc).value;
      assert v[..|next|][..|acc|] == v[..|acc|];
      assert v[|acc|] == v[..|next|][|acc|] == here[0];
      assert here == [here[0]];
    } else {
      assert acc[..|acc|] == acc;
    }
  }

  /** The lines of a word-timed document from paragraph `k` on: each paragraph's line
      followed by the lines of its background spans. */
  function WordGroups(ps: seq<Element>, k: nat): seq<Line>
    requires k <= |ps| && forall j | k <= j < |ps| :: WbwLine(ps[j]).Success?
    decreases |ps| - k
  {
    if k == |ps| then []
    else [WbwLine(ps[k]).value.0] + WbwLine(ps[k]).value.1 + WordGroups(ps, k + 1)
  }

  lemma {:induction false} WordLines(ps: seq<Element>, k: nat, acc: seq<Line>)
    requires k <= |ps| && forall j | k <= j < |ps| :: WbwLine(ps[j]).Success?
    ensures LinesFrom(WordTimed, ps, k, acc) == Success(acc + WordGroups(ps, k))
    decreases |ps| - k
  {
    if k < |ps| {
      var here := [WbwLine(ps[k]).value.0] + WbwLine(ps[k]).value.1;
      WordLines(ps, k + 1, acc + here);
      assert acc + here + WordGroups(ps, k + 1) == acc + (here + WordGroups(ps, k + 1));
    } else {
      assert acc + [] == acc;
    }
  }

  /** A word-timed document is read exactly when every paragraph is; its lines are each
      paragraph's line followed by the lines of that paragraph's background spans. */
  lemma ReadWordTimed(root: Element)
    requires TimingOf(Get(root, TimingAttr)) == WordTimed
    ensures var ps := ParagraphsOf(root);
      && (ReadTree(root).Success? <==> forall j | 0 <= j < |ps| :: WbwLine(ps[j]).Success?)
      && (ReadTree(root).Success? ==> ReadTree(root).value == Document(WordTimed, WordGroups(ps, 0)))
  {
    var ps := ParagraphsOf(root);
    TreeLines(root);
    assert LinesFrom(WordTimed, ps, 0, []).Success? <==>
        forall j | 0 <= j < |ps| :: WbwLine(ps[j]).Success? by {
      LinesOk(WordTimed, ps, 0, []);
      forall j | 0 <= j < |ps|
        ensures Contribution(WordTimed, ps[j]).Success? <==> WbwLine(ps[j]).Success?
      {
        WordContribution(ps[j]);
      }
    }
    if forall j | 0 <= j < |ps| :: WbwLine(ps[j]).Success? {
      assert LinesFrom(WordTimed, ps, 0, []) == Success(WordGroups(ps, 0)) by {
        WordLines(ps, 0, []);
        assert [] + WordGroups(ps, 0) == WordGroups(ps, 0);
      }
    }
  }

  /** The tree is read exactly when its paragraphs are, under the tree's own timing. */
  lemma TreeLines(root: Element)
    ensures var timing := TimingOf(Get(root, TimingAttr));
      var lines := LinesFrom(timing, ParagraphsOf(root), 0, []);
      && (ReadTree(root).Success? <==> lines.Success?)
      && (lines.Success? ==> ReadTree(root).value == Document(timing, lines.value))
  {
  }

  /** Under word timing a paragraph contributes its line and its background lines. */
  lemma WordContribution(p: Element)
    ensures Contribution(WordTimed, p).Success? <==> WbwLine(p).Success?
  {
  }

  /** A line-timed document is read exactly when every paragraph's times can be read;
      it then has one line per paragraph, in document order. */
  lemma ReadLineTimed(root: Element)
    requires TimingOf(Get(root, TimingAttr)) == LineTimed
    ensures var ps := ParagraphsOf(root);
      && (ReadTree(root).Success? <==> forall j | 0 <= j < |ps| :: LineOf(ps[j]).Success?)
      && (ReadTree(root).Success? ==>
            var d := ReadTree(root).value;
            d.timing == LineTimed && |d.lyrics| == |ps|
            && forall j | 0 <= j < |ps| :: LineOf(ps[j]) == Success(d.lyrics[j]))
  {
    var ps := ParagraphsOf(root);
    LinesOk(LineTimed, ps, 0, []);
    forall j | 0 <= j < |ps|
      ensures Contribution(LineTimed, ps[j]).Success? <==> LineOf(ps[j]).Success?
    {
      LineContribution(ps[j]);
    }
    if ReadTree(root).Success? {
      var v := LinesFrom(LineTimed, ps, 0, []).value;
      OneLineEach(LineTimed, ps, 0, []);
      forall j | 0 <= j < |ps|
        ensures LineOf(ps[j]) == Success(v[j])
      {
        assert Contribution(LineTimed, ps[j]) == Success([v[0 + (j - 0)]]);
        LineContribution(ps[j]);
      }
    }
  }

  /** Under line timing a paragraph contributes exactly its own line. */
  lemma LineContribution(p: Element)
    ensures Contribution(LineTimed, p).Success? <==> LineOf(p).Success?
    ensures LineOf(p).Success? ==> Contribution(LineTimed, p) == Success([LineOf(p).value])
  {
  }

  /** An untimed document is always read, one text line per paragraph. */
  lemma ReadUntimed(root: Element)
    requires TimingOf(Get(root, TimingAttr)) == Untimed
    ensures var ps := ParagraphsOf(root);
      && ReadTree(root).Success?
      && var d := ReadTree(root).value;
      && d.timing == Untimed && |d.lyrics| == |ps|
      && forall j | 0 <= j < |ps| :: d.lyrics[j] == Line(None, None, None, None, Text(ps[j].text))
  {
    var ps := ParagraphsOf(root);
    LinesOk(Untimed, ps, 0, []);
    OneLineEach(Untimed, ps, 0, []);
    var v := LinesFrom(Untimed, ps, 0, []).value;
    forall j | 0 <= j < |ps|
      ensures v[j] == Line(None, None, None, None, Text(ps[j].text))
    {
      assert Contribution(Untimed, ps[j]) == Success([v[0 + (j - 0)]]);
    }
  }

  /** Any other `timing` attribute, or none, reads no line and keeps the attribute. */
  lemma ReadUnknown(root: Element)
    requires var t := Get(root, TimingAttr);
      t != Some("Word") && t != Some("Line") && t != Some("None")
    ensures ReadTree(root) == Success(Document(UnknownTiming(Get(root, TimingAttr)), []))
  {
    UnknownReadsNothing(TimingOf(Get(root, TimingAttr)), ParagraphsOf(root), 0, []);
  }

  /** Two elements alike but for their tails. */
  predicate SameButTail(a: Element, b: Element)
  {
    a.tag == b.tag && a.attrs == b.attrs && a.text == b.text && a.children == b.children
  }

  /** Two lists of elements alike, one for one, but for their tails. */
  predicate Alike(xs: seq<Element>, ys: seq<Element>)
  {
    |xs| == |ys| && forall j | 0 <= j < |xs| :: SameButTail(xs[j], ys[j])
  }

  /** Two trees whose `<p>` elements are alike, one for one, but for their tails. */
  predicate SameParagraphs(a: Element, b: Element)
  {
    Alike(ParagraphsOf(a), ParagraphsOf(b))
  }

  /** The walk over a paragraph's children sees only those children. */
  lemma {:induction false} WalkIgnoresTail(a: Element, b: Element, k: nat, w: Walk)
    requires a.children == b.children && k <= |a.children|
    ensures WalkFrom(a, k, w) == WalkFrom(b, k, w)
    decreases |a.children| - k
  {
    if k < |a.children| {
      var next := Step(w, a.children[k]);
      if next.Success? {
        WalkIgnoresTail(a, b, k + 1, next.value);
      }
    }
  }

  /** What a paragraph contributes does not depend on its own tail. */
  lemma ContributionIgnoresTail(timing: Timing, a: Element, b: Element)
    requires SameButTail(a, b)
    ensures Contribution(timing, a) == Contribution(timing, b)
  {
    assert Get(a, "begin") == Get(b, "begin") && Get(a, "end") == Get(b, "end");
    var begin := TimeAttr(a, "begin");
    if begin.Success? {
      WalkIgnoresTail(a, b, 0, Walk(begin.value, [], []));
    }
  }

  /** The paragraph loop does not depend on the paragraphs' tails. */
  lemma {:induction false} LinesIgnoreTails(timing: Timing, pa: seq<Element>, pb: seq<Element>, k: nat, acc: seq<Line>)
    requires |pa| == |pb| && k <= |pa| && forall j | 0 <= j < |pa| :: SameButTail(pa[j], pb[j])
    ensures LinesFrom(timing, pa, k, acc) == LinesFrom(timing, pb, k, acc)
    decreases |pa| - k
  {
    if k < |pa| {
      ContributionIgnoresTail(timing, pa[k], pb[k]);
      var here := Contribution(timing, pa[k]);
      if here.Success? {
        LinesIgnoreTails(timing, pa, pb, k + 1, acc + here.value);
      }
    }
  }

  /** The reader looks at the root's `timing` and at the `<p>` elements, tails aside, and
      at nothing else of the tree: the whitespace a pretty-printing writer puts between
      elements of a line-timed document does not change what is read. */
  lemma ReadTreeTailsAside(a: Element, b: Element)
    requires Get(a, TimingAttr) == Get(b, TimingAttr) && SameParagraphs(a, b)
    ensures ReadTree(a) == ReadTree(b)
  {
    assert |ParagraphsOf(a)| == |ParagraphsOf(b)|;
    LinesIgnoreTails(TimingOf(Get(a, TimingAttr)), ParagraphsOf(a), ParagraphsOf(b), 0, []);
  }

  /** Reading already repaired text is reading the text itself: the repair is idempotent. */
  lemma ParsedRepaired(input: string, xml: XmlReader)
    ensures Parsed(Repair(input), xml) == Parsed(input, xml)
  {
    RepairIdempotent(input);
  }
}
