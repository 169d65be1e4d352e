/**
 * Writing a document as TTML and reading the tree back (lrxy/converter/ttml.py
 * `generate` then the reading part of `parse`) gives the document again, for lines whose
 * times fit the `mm:ss.xxx` form and whose agent and background flag the reader can
 * reproduce.
 */
module TtmlRoundTrip {
  import opened Wrappers
  import opened Text
  import opened Lyrics
  import opened TimeCodec
  import opened TtmlTree
  import opened TtmlParse
  import opened TtmlGenerate
  import LrcGenerate

  /** Sixty hours: below it `formatLrcTime` writes minutes the reader reads back. */
  const Limit: nat := 216000000

  predicate TimeFits(t: Option<nat>)
  {
    t.Some? && t.value < Limit
  }

  /** A line whose times, agent and background flag come back as they are: the reader
      gives `None` for an absent or empty agent and always a flag. */
  predicate Readable(line: Line)
  {
    && TimeFits(line.begin) && TimeFits(line.end)
    && (line.agent.None? || Present(line.agent))
    && line.background.Some?
  }

  /** Every agent of the lines has a number. */
  predicate NumberedAgents(ls: seq<Line>)
  {
    forall j | 0 <= j < |ls| :: Present(ls[j].agent) ==> AgentKey(ls[j].agent.value).Some?
  }

  /** A written time reads back. */
  lemma StampReads(t: Option<nat>)
    requires TimeFits(t)
    ensures DecodeTime(Some(LrcGenerate.Stamp(t).value), '.') == Success(t)
  {
    RoundTripOneColon(t.value, '.');
  }

  /** The attributes of a timed paragraph as the reader looks them up. */
  lemma AttrsRead(line: Line, b: string, e: string, text: string, children: seq<Element>)
    ensures var p := Element("p", TimedAttrs(line, b, e), text, "", children);
      && Get(p, "begin") == Some(b) && Get(p, "end") == Some(e)
      && (IsBg(p) <==> IsBackground(line.background))
      && Get(p, AgentAttr) == (if Present(line.agent) then line.agent else None)
  {
  }

  /** The paragraph written for a line under line timing. */
  lemma LineParagraph(line: Line)
    requires line.begin.Some? && line.end.Some? && line.content.Text?
    ensures ParagraphOf(LineTimed, line) == Success(Element("p",
      TimedAttrs(line, LrcGenerate.Stamp(line.begin).value, LrcGenerate.Stamp(line.end).value),
      line.content.text, "", []))
  {
  }

  /** A paragraph carrying a line's attributes, with times that read back, and its text
      reads back as the line. */
  lemma LineBack(line: Line, b: string, e: string)
    requires DecodeTime(Some(b), '.') == Success(line.begin) && DecodeTime(Some(e), '.') == Success(line.end)
    requires (line.agent.None? || Present(line.agent)) && line.background.Some? && line.content.Text?
    ensures LineOf(Element("p", TimedAttrs(line, b, e), line.content.text, "", [])) == Success(line)
  {
    var p := Element("p", TimedAttrs(line, b, e), line.content.text, "", []);
    AttrsRead(line, b, e, line.content.text, []);
    assert TimeAttr(p, "begin") == Success(line.begin) && TimeAttr(p, "end") == Success(line.end);
    assert Get(p, AgentAttr) == line.agent;
    assert IsBg(p) == line.background.value;
  }

  /** A line-timed paragraph reads back as its line. */
  lemma LineParagraphRead(line: Line)
    requires Readable(line) && line.content.Text?
    ensures ParagraphOf(LineTimed, line).Success?
    ensures LineOf(ParagraphOf(LineTimed, line).value) == Success(line)
  {
    LineParagraph(line);
    StampReads(line.begin);
    StampReads(line.end);
    LineBack(line, LrcGenerate.Stamp(line.begin).value, LrcGenerate.Stamp(line.end).value);
  }

  /** A word whose written times read back. */
  lemma SpanBack(w: Word, b: string, e: string)
    requires DecodeTime(Some(b), '.') == Success(w.begin) && DecodeTime(Some(e), '.') == Success(w.end)
    ensures var c := Element("span", map["begin" := b, "end" := e], w.text, if w.part then "" else " ", []);
      !IsBg(c) && ChildOk(c) && WordOf(c) == w
  {
    var c := Element("span", map["begin" := b, "end" := e], w.text, if w.part then "" else " ", []);
    assert Get(c, "begin") == Some(b) && Get(c, "end") == Some(e) && Get(c, RoleAttr) == None;
    assert !w.part ==> ' ' in c.tail;
  }

  /** The span written for a word. */
  lemma SpanWritten(w: Word)
    requires w.begin.Some? && w.end.Some?
    ensures SpanOf(w) == Success(Element("span",
      map["begin" := LrcGenerate.Stamp(w.begin).value, "end" := LrcGenerate.Stamp(w.end).value],
      w.text, if w.part then "" else " ", []))
  {
  }

  /** A span reads back as its word. */
  lemma SpanRead(w: Word)
    requires TimeFits(w.begin) && TimeFits(w.end)
    ensures SpanOf(w).Success?
    ensures var c := SpanOf(w).value; !IsBg(c) && ChildOk(c) && WordOf(c) == w
  {
    SpanWritten(w);
    StampReads(w.begin);
    StampReads(w.end);
    SpanBack(w, LrcGenerate.Stamp(w.begin).value, LrcGenerate.Stamp(w.end).value);
  }

  /** Spans read back as their words, and none of them is a background span. */
  lemma {:induction false} SpansRead(p: Element, ws: seq<Word>, k: nat)
    requires k <= |ws| == |p.children|
    requires forall j | 0 <= j < |ws| :: !IsBg(p.children[j]) && ChildOk(p.children[j]) && WordOf(p.children[j]) == ws[j]
    ensures WordsIn(p, k) == ws[k..] && BgLinesIn(p, k) == []
    decreases |ws| - k
  {
    if k < |ws| {
      SpansRead(p, ws, k + 1);
      assert ws[k..] == [ws[k]] + ws[k + 1..];
    }
  }

  /** The spans of words whose times fit are all written. */
  lemma SpansOk(ws: seq<Word>)
    requires forall j | 0 <= j < |ws| :: TimeFits(ws[j].begin) && TimeFits(ws[j].end)
    ensures Collect(SpanOf, ws, 0, []).Success?
  {
    forall j | 0 <= j < |ws|
      ensures SpanOf(ws[j]).Success?
    {
      SpanRead(ws[j]);
    }
    CollectSpec(SpanOf, ws, 0, []);
  }

  /** Written spans come one per word, in order, each the span of its word. */
  lemma {:induction false} SpansEach(ws: seq<Word>, spans: seq<Element>)
    requires Collect(SpanOf, ws, 0, []) == Success(spans)
    ensures |spans| == |ws| && forall j | 0 <= j < |ws| :: SpanOf(ws[j]) == Success(spans[j])
  {
    CollectEach(SpanOf, ws, spans);
  }

  /** The spans written for words whose times fit read back as those words. */
  lemma SpansBack(ws: seq<Word>)
    requires forall j | 0 <= j < |ws| :: TimeFits(ws[j].begin) && TimeFits(ws[j].end)
    ensures Collect(SpanOf, ws, 0, []).Success?
    ensures var spans := Collect(SpanOf, ws, 0, []).value;
      && |spans| == |ws|
      && forall j | 0 <= j < |spans| :: !IsBg(spans[j]) && ChildOk(spans[j]) && WordOf(spans[j]) == ws[j]
  {
    SpansOk(ws);
    var spans := Collect(SpanOf, ws, 0, []).value;
    SpansEach(ws, spans);
    forall j | 0 <= j < |spans|
      ensures !IsBg(spans[j]) && ChildOk(spans[j]) && WordOf(spans[j]) == ws[j]
    {
      SpanRead(ws[j]);
    }
  }

  /** The paragraph written for a line under word timing. */
  lemma WordParagraph(line: Line)
    requires line.begin.Some? && line.end.Some? && line.content.Words?
    requires Collect(SpanOf, line.content.words, 0, []).Success?
    ensures ParagraphOf(WordTimed, line) == Success(Element("p",
      TimedAttrs(line, LrcGenerate.Stamp(line.begin).value, LrcGenerate.Stamp(line.end).value),
      "", "", Collect(SpanOf, line.content.words, 0, []).value))
  {
  }

  /** A paragraph carrying a line's attributes, with non-zero times that read back, and
      spans that read back as its words reads back as the line. */
  lemma WordBack(line: Line, b: string, e: string, spans: seq<Element>)
    requires DecodeTime(Some(b), '.') == Success(line.begin) && DecodeTime(Some(e), '.') == Success(line.end)
    requires Truthy(line.begin) && Truthy(line.end)
    requires (line.agent.None? || Present(line.agent)) && line.background.Some? && line.content.Words?
    requires |spans| == |line.content.words|
    requires forall j | 0 <= j < |spans| :: !IsBg(spans[j]) && ChildOk(spans[j]) && WordOf(spans[j]) == line.content.words[j]
    ensures WbwLine(Element("p", TimedAttrs(line, b, e), "", "", spans)) == Success((line, []))
  {
    var p := Element("p", TimedAttrs(line, b, e), "", "", spans);
    AttrsRead(line, b, e, "", spans);
    assert TimeAttr(p, "begin") == Success(line.begin) && TimeAttr(p, "end") == Success(line.end);
    assert Get(p, AgentAttr) == line.agent;
    assert IsBg(p) == line.background.value;
    SpansRead(p, line.content.words, 0);
    assert line.content.words[0..] == line.content.words;
    WbwLineOk(p);
    WbwLineSpec(p);
  }

  /** A word-timed paragraph whose own times are non-zero reads back as its line, with no
      background line beside it. */
  lemma WordParagraphRead(line: Line)
    requires Readable(line) && line.content.Words?
    requires Truthy(line.begin) && Truthy(line.end)
    requires forall j | 0 <= j < |line.content.words| ::
      TimeFits(line.content.words[j].begin) && TimeFits(line.content.words[j].end)
    ensures ParagraphOf(WordTimed, line).Success?
    ensures WbwLine(ParagraphOf(WordTimed, line).value) == Success((line, []))
  {
    var ws := line.content.words;
    SpansBack(ws);
    var spans := Collect(SpanOf, ws, 0, []).value;
    WordParagraph(line);
    StampReads(line.begin);
    StampReads(line.end);
    WordBack(line, LrcGenerate.Stamp(line.begin).value, LrcGenerate.Stamp(line.end).value, spans);
  }

  /** An element with no paragraph below it. */
  predicate Leaf(c: Element)
  {
    c.tag != "p" && c.children == []
  }

  /** A paragraph with no paragraph below it. */
  predicate Flat(c: Element)
  {
    c.tag == "p" && forall j | 0 <= j < |c.children| :: Leaf(c.children[j])
  }

  lemma {:induction false} LeavesHoldNone(e: Element, k: nat)
    requires k <= |e.children| && forall j | 0 <= j < |e.children| :: Leaf(e.children[j])
    ensures ParagraphsIn(e, k) == []
    decreases |e.children| - k
  {
    if k < |e.children| {
      LeavesHoldNone(e, k + 1);
      assert ParagraphsIn(e.children[k], 0) == [];
    }
  }

  lemma {:induction false} FlatParagraphs(e: Element, k: nat)
    requires k <= |e.children| && forall j | 0 <= j < |e.children| :: Flat(e.children[j])
    ensures ParagraphsIn(e, k) == e.children[k..]
    decreases |e.children| - k
  {
    if k < |e.children| {
      FlatParagraphs(e, k + 1);
      LeavesHoldNone(e.children[k], 0);
      assert e.children[k..] == [e.children[k]] + e.children[k + 1..];
    }
  }

  /** The reader finds exactly the paragraphs under `<body><div>`: the metadata holds
      none. */
  lemma TreeParagraphs(name: string, agents: seq<Element>, ps: seq<Element>)
    requires forall j | 0 <= j < |agents| :: Leaf(agents[j])
    requires forall j | 0 <= j < |ps| :: Flat(ps[j])
    ensures ParagraphsOf(Tree(name, agents, ps)) == ps
  {
    var t := Tree(name, agents, ps);
    var head, body := t.children[0], t.children[1];
    var metadata, div := head.children[0], body.children[0];
    LeavesHoldNone(metadata, 0);
    FlatParagraphs(div, 0);
    assert ps[0..] == ps;
    assert ParagraphsIn(head, 0) == ParagraphsOf(metadata) + ParagraphsIn(head, 1) == [];
    assert ParagraphsIn(body, 0) == ParagraphsOf(div) + ParagraphsIn(body, 1) == ps;
    assert ParagraphsIn(t, 0) == ParagraphsOf(head) + (ParagraphsOf(body) + ParagraphsIn(t, 2));
  }

  /** A span holds no paragraph. */
  lemma SpanLeaf(w: Word)
    requires SpanOf(w).Success?
    ensures Leaf(SpanOf(w).value)
  {
  }

  /** Every paragraph written is flat: its only children are word spans. */
  lemma ParagraphFlat(timing: Timing, line: Line)
    requires ParagraphOf(timing, line).Success?
    ensures Flat(ParagraphOf(timing, line).value)
  {
    var p := ParagraphOf(timing, line).value;
    assert p.tag == "p";
    if timing == WordTimed && p.children != [] {
      var ws := WordsOf(line.content).value;
      CollectSpec(SpanOf, ws, 0, []);
      assert p.children == Collect(SpanOf, ws, 0, []).value;
      forall j | 0 <= j < |p.children|
        ensures Leaf(p.children[j])
      {
        SpanLeaf(ws[j]);
      }
    }
  }

  /** The agents of the metadata hold no paragraph. */
  lemma AgentsLeaves(agents: seq<string>)
    ensures forall j | 0 <= j < |AgentElements(agents)| :: Leaf(AgentElements(agents)[j])
  {
  }

  /** Reading paragraphs that each give one line gives those lines. */
  lemma {:induction false} ReadEach(timing: Timing, ps: seq<Element>, ls: seq<Line>, k: nat, acc: seq<Line>)
    requires k <= |ps| == |ls|
    requires forall j | 0 <= j < |ps| :: Contribution(timing, ps[j]) == Success([ls[j]])
    ensures LinesFrom(timing, ps, k, acc) == Success(acc + ls[k..])
    decreases |ps| - k
  {
    if k < |ps| {
      ReadEach(timing, ps, ls, k + 1, acc + [ls[k]]);
      assert acc + [ls[k]] + ls[k + 1..] == acc + ls[k..];
    } else {
      assert acc + ls[k..] == acc;
    }
  }

  /** A tree of flat paragraphs reads back as the lines they give. */
  lemma TreeRead(name: string, agents: seq<Element>, ps: seq<Element>, ls: seq<Line>)
    requires forall j | 0 <= j < |agents| :: Leaf(agents[j])
    requires forall j | 0 <= j < |ps| :: Flat(ps[j])
    requires |ps| == |ls| && forall j | 0 <= j < |ps| :: Contribution(TimingOf(Some(name)), ps[j]) == Success([ls[j]])
    ensures ReadTree(Tree(name, agents, ps)) == Success(Document(TimingOf(Some(name)), ls))
  {
    TreeParagraphs(name, agents, ps);
    ReadEach(TimingOf(Some(name)), ps, ls, 0, []);
    assert [] + ls[0..] == ls;
    assert Get(Tree(name, agents, ps), TimingAttr) == Some(name);
  }

  /** The tree of a written document reads back as the lines each paragraph gives. */
  lemma WrittenRead(d: Document, name: string, ps: seq<Element>)
    requires Generated(d).Success? && TimingName(d.timing) == Some(name)
    requires Paragraphs(d.timing, d.lyrics) == Success(ps) && |ps| == |d.lyrics|
    requires forall j | 0 <= j < |ps| :: Contribution(TimingOf(Some(name)), ps[j]) == Success([d.lyrics[j]])
    ensures ReadTree(Generated(d).value) == Success(Document(TimingOf(Some(name)), d.lyrics))
  {
    var agents := AgentsFrom(d.timing, d.lyrics, 0, []);
    GeneratedTree(d);
    forall j | 0 <= j < |ps|
      ensures Flat(ps[j])
    {
      ParagraphFlat(d.timing, d.lyrics[j]);
    }
    AgentsLeaves(SortByKey(agents));
    TreeRead(name, AgentElements(SortByKey(agents)), ps, d.lyrics);
  }

  /** A line-timed document whose lines are readable, hold text and have numbered agents
      is written, and its tree reads back as the same document. */
  lemma LineTimedRoundTrip(ls: seq<Line>)
    requires forall j | 0 <= j < |ls| :: Readable(ls[j]) && ls[j].content.Text?
    requires NumberedAgents(ls)
    ensures Generated(Document(LineTimed, ls)).Success?
    ensures ReadTree(Generated(Document(LineTimed, ls)).value) == Success(Document(LineTimed, ls))
  {
    var d := Document(LineTimed, ls);
    GeneratedOk(d);
    ParagraphsSpec(LineTimed, ls);
    forall j | 0 <= j < |ls|
      ensures Contribution(LineTimed, Paragraphs(LineTimed, ls).value[j]) == Success([ls[j]])
    {
      LineParagraphRead(ls[j]);
    }
    WrittenRead(d, "Line", Paragraphs(LineTimed, ls).value);
  }

  /** A word-timed document whose lines are readable, have non-zero times, hold words
      whose times fit and have numbered agents is written, and its tree reads back as the
      same document. */
  lemma WordTimedRoundTrip(ls: seq<Line>)
    requires forall j | 0 <= j < |ls| ::
      Readable(ls[j]) && ls[j].content.Words? && Truthy(ls[j].begin) && Truthy(ls[j].end)
    requires forall j, i | 0 <= j < |ls| && 0 <= i < |ls[j].content.words| ::
      TimeFits(ls[j].content.words[i].begin) && TimeFits(ls[j].content.words[i].end)
    requires NumberedAgents(ls)
    ensures Generated(Document(WordTimed, ls)).Success?
    ensures ReadTree(Generated(Document(WordTimed, ls)).value) == Success(Document(WordTimed, ls))
  {
    var d := Document(WordTimed, ls);
    forall j | 0 <= j < |ls|
      ensures ParagraphOf(WordTimed, ls[j]).Success?
      ensures WbwLine(ParagraphOf(WordTimed, ls[j]).value) == Success((ls[j], []))
    {
      WordParagraphRead(ls[j]);
    }
    forall j | 0 <= j < |ls|
      ensures Fits(WordTimed, ls[j])
    {
      ParagraphOk(WordTimed, ls[j]);
    }
    GeneratedOk(d);
    ParagraphsSpec(WordTimed, ls);
    forall j | 0 <= j < |ls|
      ensures Contribution(WordTimed, Paragraphs(WordTimed, ls).value[j]) == Success([ls[j]])
    {
      assert [ls[j]] + [] == [ls[j]];
    }
    WrittenRead(d, "Word", Paragraphs(WordTimed, ls).value);
  }

  /** An untimed document of text lines, as the reader builds them, reads back unchanged. */
  lemma UntimedRoundTrip(ls: seq<Line>)
    requires forall j | 0 <= j < |ls| ::
      ls[j].content.Text? && ls[j] == Line(None, None, None, None, ls[j].content)
    ensures Generated(Document(Untimed, ls)).Success?
    ensures ReadTree(Generated(Document(Untimed, ls)).value) == Success(Document(Untimed, ls))
  {
    var d := Document(Untimed, ls);
    GeneratedOk(d);
    ParagraphsSpec(Untimed, ls);
    WrittenRead(d, "None", Paragraphs(Untimed, ls).value);
  }

  /** Under another timing the paragraphs are written empty: the timing reads back, the
      lines do not. */
  lemma UnknownTimingRead(tag: string, ls: seq<Line>)
    requires tag != "Word" && tag != "Line" && tag != "None"
    requires Generated(Document(UnknownTiming(Some(tag)), ls)).Success?
    ensures ReadTree(Generated(Document(UnknownTiming(Some(tag)), ls)).value)
      == Success(Document(UnknownTiming(Some(tag)), []))
  {
    var d := Document(UnknownTiming(Some(tag)), ls);
    GeneratedTree(d);
    ReadUnknown(Generated(d).value);
  }

  // ---------------------------------------------------------------------------
  // The pretty-printing writer
  // ---------------------------------------------------------------------------

  /** Paragraphs without children: what a line-timed or untimed document writes. */
  predicate Childless(ps: seq<Element>)
  {
    forall j | 0 <= j < |ps| :: ps[j].children == []
  }

  /** The paragraphs below an element depend on its children only. */
  lemma {:induction false} InByChildren(a: Element, b: Element, k: nat)
    requires a.children == b.children && k <= |a.children|
    ensures ParagraphsIn(a, k) == ParagraphsIn(b, k)
    decreases |a.children| - k
  {
    if k < |a.children| {
      InByChildren(a, b, k + 1);
    }
  }

  /** A new tail changes at most the tail of the first paragraph found. */
  lemma Retailed(x: Element, t: string)
    ensures Alike(ParagraphsOf(x.(tail := t)), ParagraphsOf(x))
  {
    InByChildren(x.(tail := t), x, 0);
  }

  lemma AlikeJoin(a1: seq<Element>, a2: seq<Element>, b1: seq<Element>, b2: seq<Element>)
    requires Alike(a1, b1) && Alike(a2, b2)
    ensures Alike(a1 + a2, b1 + b2)
  {
  }

  lemma AlikeTrans(a: seq<Element>, b: seq<Element>, c: seq<Element>)
    requires Alike(a, b) && Alike(b, c)
    ensures Alike(a, c)
  {
  }

  /** A `<p>` is the first paragraph found at or below itself. */
  lemma OwnParagraph(e: Element)
    ensures e.tag == "p" ==> |ParagraphsOf(e)| > 0 && ParagraphsOf(e)[0] == e
  {
  }

  /** Children alike, paragraph for paragraph, give paragraphs alike. */
  lemma {:induction false} AlikeIn(a: Element, b: Element, k: nat)
    requires |a.children| == |b.children| && k <= |a.children|
    requires forall j | k <= j < |a.children| :: Alike(ParagraphsOf(a.children[j]), ParagraphsOf(b.children[j]))
    ensures Alike(ParagraphsIn(a, k), ParagraphsIn(b, k))
    decreases |a.children| - k
  {
    if k < |a.children| {
      AlikeIn(a, b, k + 1);
      AlikeJoin(ParagraphsOf(a.children[k]), ParagraphsIn(a, k + 1), ParagraphsOf(b.children[k]), ParagraphsIn(b, k + 1));
    }
  }

  /** Childless paragraphs below an element are childless below each of its children. */
  lemma {:induction false} ChildlessBelow(e: Element, k: nat)
    requires k <= |e.children| && Childless(ParagraphsIn(e, k))
    ensures forall j | k <= j < |e.children| :: Childless(ParagraphsOf(e.children[j]))
    decreases |e.children| - k
  {
    if k < |e.children| {
      var a, b := ParagraphsOf(e.children[k]), ParagraphsIn(e, k + 1);
      assert ParagraphsIn(e, k) == a + b;
      assert forall j | 0 <= j < |a| :: a[j] == (a + b)[j];
      assert forall j | 0 <= j < |b| :: b[j] == (a + b)[|a| + j];
      ChildlessBelow(e, k + 1);
    }
  }

  /** Where no paragraph has children, pretty printing only adds whitespace texts and
      tails around the paragraphs: each paragraph comes back as it was, tail aside. */
  lemma {:induction false} PrettyParagraphs(e: Element, level: nat)
    requires Childless(ParagraphsOf(e))
    ensures Alike(ParagraphsOf(Pretty(e, level)), ParagraphsOf(e))
    decreases e, 1
  {
    if e.children != [] && !HasTextContent(e) {
      OwnParagraph(e);
      var pe := Pretty(e, level);
      assert pe.tag == e.tag && |pe.children| == |e.children|;
      assert ParagraphsOf(e) == [] + ParagraphsIn(e, 0) == ParagraphsIn(e, 0);
      assert ParagraphsOf(pe) == [] + ParagraphsIn(pe, 0) == ParagraphsIn(pe, 0);
      ChildlessBelow(e, 0);
      forall j | 0 <= j < |e.children|
        ensures Alike(ParagraphsOf(pe.children[j]), ParagraphsOf(e.children[j]))
      {
        PrettyChild(e, level, j);
      }
      AlikeIn(pe, e, 0);
    }
  }

  /** One child of a pretty-printed element: its paragraphs are the child's, tails aside. */
  lemma {:induction false} PrettyChild(e: Element, level: nat, j: nat)
    requires e.children != [] && !HasTextContent(e) && j < |e.children|
    requires Childless(ParagraphsOf(e.children[j]))
    ensures |Pretty(e, level).children| == |e.children|
    ensures Alike(ParagraphsOf(Pretty(e, level).children[j]), ParagraphsOf(e.children[j]))
    decreases e, 0
  {
    var c := e.children[j];
    var n := |e.children|;
    var t := if j + 1 < n then Indent(level + 1) else Indent(level);
    assert Pretty(e, level).children[j] == Pretty(c, level + 1).(tail := t);
    PrettyParagraphs(c, level + 1);
    Retailed(Pretty(c, level + 1), t);
    AlikeTrans(ParagraphsOf(Pretty(c, level + 1).(tail := t)), ParagraphsOf(Pretty(c, level + 1)), ParagraphsOf(c));
  }

  /** A line-timed document written through `pretty_print` reads back as the document:
      the indentation keeps the root's `timing` and every paragraph but its tail. */
  lemma PrettyLineTimedRead(ls: seq<Line>)
    requires forall j | 0 <= j < |ls| :: Readable(ls[j]) && ls[j].content.Text?
    requires NumberedAgents(ls)
    ensures Generated(Document(LineTimed, ls)).Success?
    ensures var tree := Generated(Document(LineTimed, ls)).value;
      var shown := Pretty(tree, 0);
      && Get(shown, TimingAttr) == Get(tree, TimingAttr)
      && SameParagraphs(shown, tree)
      && ReadTree(shown) == Success(Document(LineTimed, ls))
  {
    var d := Document(LineTimed, ls);
    LineTimedRoundTrip(ls);
    var tree := Generated(d).value;
    var agents := AgentsFrom(LineTimed, ls, 0, []);
    var ps := Paragraphs(LineTimed, ls).value;
    assert tree == Tree("Line", AgentElements(SortByKey(agents)), ps) && |ps| == |ls|
        && forall j | 0 <= j < |ls| :: ParagraphOf(LineTimed, ls[j]) == Success(ps[j]) by {
      GeneratedTree(d);
    }
    forall j | 0 <= j < |ps|
      ensures Flat(ps[j]) && ps[j].children == []
    {
      ParagraphFlat(LineTimed, ls[j]);
    }
    AgentsLeaves(SortByKey(agents));
    TreeParagraphs("Line", AgentElements(SortByKey(agents)), ps);
    PrettyParagraphs(tree, 0);
    ReadTreeTailsAside(Pretty(tree, 0), tree);
  }

  /** The word-timed round trip does not survive `pretty_print`: a `<p>` whose spans all
      have no tail (every word `part`) holds elements only, so each span comes back with
      an indentation tail, which holds a space below the top level, and the reader takes
      every such word as not `part`. */
  lemma PrettyUnglues(p: Element, level: nat)
    requires p.text == "" && p.children != [] && level >= 1
    requires forall i | 0 <= i < |p.children| :: p.children[i].tail == ""
    ensures |Pretty(p, level).children| == |p.children|
    ensures forall i | 0 <= i < |p.children| :: !Glued(Pretty(p, level).children[i].tail)
  {
    var pe := Pretty(p, level);
    forall i | 0 <= i < |p.children|
      ensures !Glued(pe.children[i].tail)
    {
      var t := pe.children[i].tail;
      var l := if i + 1 < |p.children| then level + 1 else level;
      assert t == Indent(l);
      assert t[1] == ' ';
    }
  }
}
