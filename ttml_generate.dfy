/**
 * Writing TTML (lrxy/converter/ttml.py `generate`): the root `<tt>` carries the timing
 * and the language, `<head><metadata>` lists the agents, and `<body><div>` holds one
 * `<p>` per line — with its text, or a `<span>` per word under word timing. The tree is
 * the result; serialising it is the XML library's work.
 */
module TtmlGenerate {
  import opened Wrappers
  import opened Text
  import opened Lyrics
  import opened TimeCodec
  import opened TtmlTree
  import LrcGenerate

  /** `{http://www.w3.org/ns/ttml#metadata}agent`, the tag of an agent of the metadata. */
  const AgentTag: string := "{http://www.w3.org/ns/ttml#metadata}agent"

  /** The value the document's timing gives the root's `timing` attribute; a document
      read from LRC text without lyric lines has none, and lxml refuses `None`. */
  function TimingName(t: Timing): Option<string>
  {
    match t
    case WordTimed => Some("Word")
    case LineTimed => Some("Line")
    case Untimed => Some("None")
    case UnknownTiming(tag) => tag
  }

  /** The `<span>` of a word: its formatted times, its text, and a one-space tail unless
      it is glued to the next word. */
  function SpanOf(w: Word): Result<Element, Error>
  {
    var b :- LrcGenerate.Stamp(w.begin);
    var e :- LrcGenerate.Stamp(w.end);
    Success(Element("span", map["begin" := b, "end" := e], w.text, if w.part then "" else " ", []))
  }

  /** The attributes of a timed `<p>`: its times, `role="x-bg"` for a background line and
      the agent when it has one. */
  function TimedAttrs(line: Line, b: string, e: string): map<string, string>
  {
    var times := map["begin" := b, "end" := e];
    var withRole := if IsBackground(line.background) then times[RoleAttr := Background] else times;
    if Present(line.agent) then withRole[AgentAttr := line.agent.value] else withRole
  }

  /** The `<p>` of a line. Untimed, it holds only the text. Otherwise it carries the
      attributes and, under line timing, the text or, under word timing, the spans of the
      words; under another timing it stays empty. A missing time or content of the wrong
      shape for the timing is refused. */
  function ParagraphOf(timing: Timing, line: Line): Result<Element, Error>
  {
    if timing == Untimed then
      if line.content.Text? then Success(Element("p", map[], line.content.text, "", []))
      else Failure(MissingValue)
    else
      var b :- LrcGenerate.Stamp(line.begin);
      var e :- LrcGenerate.Stamp(line.end);
      var attrs := TimedAttrs(line, b, e);
      if timing == LineTimed then
        if line.content.Text? then Success(Element("p", attrs, line.content.text, "", []))
        else Failure(MissingValue)
      else if timing == WordTimed then
        if WordsOf(line.content).None? then Failure(MissingValue)
        else
          var spans :- Collect(SpanOf, WordsOf(line.content).value, 0, []);
          Success(Element("p", attrs, "", "", spans))
      else Success(Element("p", attrs, "", "", []))
  }

  /** The paragraphs of the lines, in order. */
  function Paragraphs(timing: Timing, ls: seq<Line>): Result<seq<Element>, Error>
  {
    Collect(l => ParagraphOf(timing, l), ls, 0, [])
  }

  /** The `agents` set the loop fills: each agent of a timed line once. Its iteration
      order is Python's; here it is the order of first appearance. */
  function AgentsFrom(timing: Timing, ls: seq<Line>, k: nat, acc: seq<string>): seq<string>
    requires k <= |ls|
    decreases |ls| - k
  {
    if k == |ls| then acc
    else if timing != Untimed && Present(ls[k].agent) && ls[k].agent.value !in acc then
      AgentsFrom(timing, ls, k + 1, acc + [ls[k].agent.value])
    else AgentsFrom(timing, ls, k + 1, acc)
  }

  /** `int(agent.removeprefix('v'))` for the agents `int` reads as a decimal numeral. */
  function AgentKey(a: string): Option<nat>
  {
    var rest := if |a| > 0 && a[0] == 'v' then a[1..] else a;
    if rest != "" && AllDigits(rest) then Some(Value(rest)) else None
  }

  /** The sort key of an agent whose key can be read. */
  function KeyOf(a: string): nat
  {
    var k := AgentKey(a);
    if k.Some? then k.value else 0
  }

  /** The first agent whose key cannot be read, which makes `sorted` raise. */
  function FirstBadAgent(agents: seq<string>, k: nat): Option<string>
    requires k <= |agents|
    decreases |agents| - k
  {
    if k == |agents| then None
    else if AgentKey(agents[k]).None? then Some(agents[k])
    else FirstBadAgent(agents, k + 1)
  }

  /** `a` placed after every agent of `s` whose key is not larger. */
  function Insert(a: string, s: seq<string>, key: string -> nat): seq<string>
  {
    if s == [] then [a]
    else if key(a) < key(s[0]) then [a] + s
    else [s[0]] + Insert(a, s[1..], key)
  }

  /** A stable sort by key: the agents from `k` on inserted one by one into `acc`. */
  function SortFrom(agents: seq<string>, k: nat, acc: seq<string>, key: string -> nat): seq<string>
    requires k <= |agents|
    decreases |agents| - k
  {
    if k == |agents| then acc else SortFrom(agents, k + 1, Insert(agents[k], acc, key), key)
  }

  /** `sorted(agents, key=lambda s: int(s.removeprefix('v')))`. */
  function SortByKey(agents: seq<string>): seq<string>
  {
    SortFrom(agents, 0, [], KeyOf)
  }

  /** The metadata entry of an agent: `v1` and `v2` are persons, every other agent a group. */
  function AgentElement(a: string): Element
  {
    Element(AgentTag, map[IdAttr := a, "type" := if a == "v1" || a == "v2" then "person" else "group"], "", "", [])
  }

  /** The metadata entries, one per agent in order: an agent element with the agent as
      its id, typed `person` exactly for `v1` and `v2` and `group` otherwise, with no
      other attribute, text or child. */
  function AgentElements(agents: seq<string>): (r: seq<Element>)
    ensures |r| == |agents|
    ensures forall i | 0 <= i < |agents| ::
      && r[i].tag == AgentTag && r[i].attrs.Keys == {IdAttr, "type"}
      && r[i].attrs[IdAttr] == agents[i]
      && (r[i].attrs["type"] == "person" <==> agents[i] == "v1" || agents[i] == "v2")
      && (r[i].attrs["type"] == "group" <==> agents[i] != "v1" && agents[i] != "v2")
      && r[i].text == "" && r[i].children == []
  {
    seq(|agents|, i requires 0 <= i < |agents| => AgentElement(agents[i]))
  }

  /** The whole tree: `<tt>` with `<head><metadata>` and `<body><div>`. */
  function Tree(timing: string, agents: seq<Element>, ps: seq<Element>): Element
  {
    Element("tt", map[TimingAttr := timing, LangAttr := "en"], "", "", [
      Element("head", map[], "", "", [Element("metadata", map[], "", "", agents)]),
      Element("body", map[], "", "", [Element("div", map[], "", "", ps)])])
  }

  /** `n` spaces. */
  function Spaces(n: nat): (r: string)
    ensures |r| == n && forall i | 0 <= i < n :: r[i] == ' '
  {
    if n == 0 then "" else Spaces(n - 1) + " "
  }

  /** The line break and indentation `pretty_print` writes before an element at depth
      `level` (two spaces a level). */
  function Indent(level: nat): string
  {
    "\n" + Spaces(2 * level)
  }

  /** Text among an element's content: its own text, or the tail of some child. */
  predicate HasTextContent(e: Element)
  {
    e.text != "" || exists i | 0 <= i < |e.children| :: e.children[i].tail != ""
  }

  /** The tree that `etree.tostring(e, pretty_print=True)` writes, as the XML parser
      reads it back. An element whose content is elements only gets each child on a
      line of its own, indented by depth: the indentation becomes its text and the
      tails of its children. An element without children, or with text among its
      content, is written as it stands, and so is everything inside it. */
  function Pretty(e: Element, level: nat): Element
    decreases e
  {
    if e.children == [] || HasTextContent(e) then e
    else
      var n := |e.children|;
      e.(text := Indent(level + 1),
         children := seq(n, i requires 0 <= i < n =>
           Pretty(e.children[i], level + 1).(tail := if i + 1 < n then Indent(level + 1) else Indent(level))))
  }

  /** `generate`: the tree of a document. */
  function Generated(d: Document): Result<Element, Error>
  {
    if TimingName(d.timing).None? then Failure(MissingValue)
    else
      var ps :- Paragraphs(d.timing, d.lyrics);
      var agents := AgentsFrom(d.timing, d.lyrics, 0, []);
      var bad := FirstBadAgent(agents, 0);
      if bad.Some? then Failure(MalformedAgent(bad.value))
      else Success(Tree(TimingName(d.timing).value, AgentElements(SortByKey(agents)), ps))
  }

  // ---------------------------------------------------------------------------
  // The codec's loops
  // ---------------------------------------------------------------------------

  /** The `<span>` of one word, formatting its times. */
  method BuildSpan(word: Word) returns (r: Result<Element, Error>)
    ensures r == SpanOf(word)
  {
    if word.begin.None? || word.end.None? {
      return Failure(MissingValue);
    }
    var b := FormatLrcTime(word.begin.value, 1, '.');
    var e := FormatLrcTime(word.end.value, 1, '.');
    return Success(Element("span", map["begin" := b, "end" := e], word.text, if word.part then "" else " ", []));
  }

  /** The loop over a line's words. */
  method WordSpans(words: seq<Word>) returns (r: Result<seq<Element>, Error>)
    ensures r == Collect(SpanOf, words, 0, [])
  {
    var spans: seq<Element> := [];
    for i := 0 to |words|
      invariant Collect(SpanOf, words, 0, []) == Collect(SpanOf, words, i, spans)
    {
      var span := BuildSpan(words[i]);
      if span.Failure? {
        return Failure(span.error);
      }
      spans := spans + [span.value];
    }
    return Success(spans);
  }

  /** The body of the loop of `generate` for one line. */
  method BuildParagraph(timing: Timing, line: Line) returns (r: Result<Element, Error>)
    ensures r == ParagraphOf(timing, line)
  {
    if timing == Untimed {
      if line.content.Words? {
        return Failure(MissingValue);
      }
      return Success(Element("p", map[], line.content.text, "", []));
    }
    if line.begin.None? || line.end.None? {
      return Failure(MissingValue);
    }
    var b := FormatLrcTime(line.begin.value, 1, '.');
    var e := FormatLrcTime(line.end.value, 1, '.');
    var attrs := map["begin" := b, "end" := e];
    if IsBackground(line.background) {
      attrs := attrs[RoleAttr := Background];
    }
    if Present(line.agent) {
      attrs := attrs[AgentAttr := line.agent.value];
    }
    if timing == LineTimed {
      if line.content.Words? {
        return Failure(MissingValue);
      }
      return Success(Element("p", attrs, line.content.text, "", []));
    } else if timing == WordTimed {
      var words := WordsOf(line.content);
      if words.None? {
        return Failure(MissingValue);
      }
      var spans := WordSpans(words.value);
      if spans.Failure? {
        return Failure(spans.error);
      }
      return Success(Element("p", attrs, "", "", spans.value));
    }
    return Success(Element("p", attrs, "", "", []));
  }

  /** `generate`: the paragraphs and the agents in one loop over the lines, then the
      agents sorted by their number. */
  method Generate(data: Document) returns (r: Result<Element, Error>)
    ensures r == Generated(data)
  {
    var timing := TimingName(data.timing);
    if timing.None? {
      return Failure(MissingValue);
    }
    var ls := data.lyrics;
    var ps: seq<Element> := [];
    var agents: seq<string> := [];
    for i := 0 to |ls|
      invariant Paragraphs(data.timing, ls) == Collect(l => ParagraphOf(data.timing, l), ls, i, ps)
      invariant AgentsFrom(data.timing, ls, 0, []) == AgentsFrom(data.timing, ls, i, agents)
    {
      var p := BuildParagraph(data.timing, ls[i]);
      if p.Failure? {
        return Failure(p.error);
      }
      if data.timing != Untimed && Present(ls[i].agent) && ls[i].agent.value !in agents {
        agents := agents + [ls[i].agent.value];
      }
      ps := ps + [p.value];
    }
    for i := 0 to |agents|
      invariant FirstBadAgent(agents, 0) == FirstBadAgent(agents, i)
    {
      if AgentKey(agents[i]).None? {
        return Failure(MalformedAgent(agents[i]));
      }
    }
    return Success(Tree(timing.value, AgentElements(SortByKey(agents)), ps));
  }

  // ---------------------------------------------------------------------------
  // Properties
  // ---------------------------------------------------------------------------

  /** A line the generator can write under `timing`: untimed, its content is text;
      otherwise it has both times and, under line timing, text or, under word timing,
      words (or the empty text) that all have both times. */
  predicate Fits(timing: Timing, line: Line)
  {
    if timing == Untimed then line.content.Text?
    else
      && line.begin.Some? && line.end.Some?
      && (timing == LineTimed ==> line.content.Text?)
      && (timing == WordTimed ==>
            WordsOf(line.content).Some? && TimedWords(WordsOf(line.content).value))
  }

  predicate TimedWords(ws: seq<Word>)
  {
    forall j | 0 <= j < |ws| :: ws[j].begin.Some? && ws[j].end.Some?
  }

  /** A line's paragraph is written exactly when the line fits the timing. */
  lemma ParagraphOk(timing: Timing, line: Line)
    ensures ParagraphOf(timing, line).Success? <==> Fits(timing, line)
  {
    if timing == WordTimed && line.begin.Some? && line.end.Some? && WordsOf(line.content).Some? {
      CollectSpec(SpanOf, WordsOf(line.content).value, 0, []);
    }
  }

  /** The paragraphs are written exactly when every line fits the timing. */
  lemma ParagraphsOk(timing: Timing, ls: seq<Line>)
    ensures Paragraphs(timing, ls).Success? <==> forall j | 0 <= j < |ls| :: Fits(timing, ls[j])
  {
    var f := l => ParagraphOf(timing, l);
    CollectSpec(f, ls, 0, []);
    forall j | 0 <= j < |ls|
      ensures f(ls[j]).Success? <==> Fits(timing, ls[j])
    {
      ParagraphOk(timing, ls[j]);
    }
  }

  /** Written paragraphs come one per line, in order. */
  lemma {:induction false} ParagraphsEach(timing: Timing, ls: seq<Line>, ps: seq<Element>)
    requires Paragraphs(timing, ls) == Success(ps)
    ensures |ps| == |ls| && forall j | 0 <= j < |ls| :: ParagraphOf(timing, ls[j]) == Success(ps[j])
  {
    var f := l => ParagraphOf(timing, l);
    CollectEach(f, ls, ps);
    forall j | 0 <= j < |ls|
      ensures ParagraphOf(timing, ls[j]) == Success(ps[j])
    {
      assert f(ls[j]) == Success(ps[j]);
    }
  }

  /** The paragraphs are written exactly when every line fits the timing; there is one
      per line, in order. */
  lemma ParagraphsSpec(timing: Timing, ls: seq<Line>)
    ensures Paragraphs(timing, ls).Success? <==> forall j | 0 <= j < |ls| :: Fits(timing, ls[j])
    ensures Paragraphs(timing, ls).Success? ==>
      var ps := Paragraphs(timing, ls).value;
      |ps| == |ls| && forall j | 0 <= j < |ls| :: ParagraphOf(timing, ls[j]) == Success(ps[j])
  {
    ParagraphsOk(timing, ls);
    if Paragraphs(timing, ls).Success? {
      ParagraphsEach(timing, ls, Paragraphs(timing, ls).value);
    }
  }

  /** No agent is listed twice. */
  predicate Distinct(s: seq<string>)
  {
    forall i, j | 0 <= i < j < |s| :: s[i] != s[j]
  }

  /** The agents of the timed lines from `k` on. */
  function AgentSet(timing: Timing, ls: seq<Line>, k: nat): set<string>
    requires k <= |ls|
    decreases |ls| - k
  {
    if k == |ls| then {}
    else
      var here: set<string> := if timing != Untimed && Present(ls[k].agent) then {ls[k].agent.value} else {};
      here + AgentSet(timing, ls, k + 1)
  }

  lemma {:induction false} AgentSetHas(timing: Timing, ls: seq<Line>, k: nat, j: nat)
    requires k <= j < |ls| && timing != Untimed && Present(ls[j].agent)
    ensures ls[j].agent.value in AgentSet(timing, ls, k)
    decreases j - k
  {
    if k < j {
      AgentSetHas(timing, ls, k + 1, j);
    }
  }

  lemma {:induction false} AgentSetFrom(timing: Timing, ls: seq<Line>, k: nat, a: string)
    requires k <= |ls| && a in AgentSet(timing, ls, k)
    ensures exists j | k <= j < |ls| :: timing != Untimed && Present(ls[j].agent) && ls[j].agent.value == a
    decreases |ls| - k
  {
    if !(timing != Untimed && Present(ls[k].agent) && ls[k].agent.value == a) {
      AgentSetFrom(timing, ls, k + 1, a);
    }
  }

  lemma DistinctSnoc(s: seq<string>, x: string)
    requires Distinct(s) && x !in s
    ensures Distinct(s + [x])
  {
  }

  /** The agents collected are distinct, and they are those collected before together
      with the agent of every timed line that has one. */
  lemma {:induction false} AgentsSpec(timing: Timing, ls: seq<Line>, k: nat, acc: seq<string>)
    requires k <= |ls| && Distinct(acc)
    ensures Distinct(AgentsFrom(timing, ls, k, acc))
    ensures forall a :: a in AgentsFrom(timing, ls, k, acc) <==> a in acc || a in AgentSet(timing, ls, k)
    decreases |ls| - k
  {
    if k < |ls| {
      if timing != Untimed && Present(ls[k].agent) && ls[k].agent.value !in acc {
        DistinctSnoc(acc, ls[k].agent.value);
        AgentsSpec(timing, ls, k + 1, acc + [ls[k].agent.value]);
      } else {
        AgentsSpec(timing, ls, k + 1, acc);
      }
    }
  }

  /** The sort reports the first agent whose key cannot be read, and none when every key
      can be. */
  lemma {:induction false} FirstBadSpec(agents: seq<string>, k: nat)
    requires k <= |agents|
    ensures FirstBadAgent(agents, k).None? <==> forall i | k <= i < |agents| :: AgentKey(agents[i]).Some?
    ensures FirstBadAgent(agents, k).Some? ==>
      FirstBadAgent(agents, k).value in agents[k..] && AgentKey(FirstBadAgent(agents, k).value).None?
    decreases |agents| - k
  {
    if k < |agents| {
      FirstBadSpec(agents, k + 1);
    }
  }

  /** Agents in ascending key order. */
  predicate SortedBy(s: seq<string>, key: string -> nat)
  {
    forall i, j | 0 <= i < j < |s| :: key(s[i]) <= key(s[j])
  }

  lemma {:induction false} InsertPerm(a: string, s: seq<string>, key: string -> nat)
    ensures multiset(Insert(a, s, key)) == multiset(s) + multiset{a}
  {
    if s != [] && key(a) >= key(s[0]) {
      InsertPerm(a, s[1..], key);
      assert s == [s[0]] + s[1..];
    }
  }

  /** Every agent of `s` has a key of at least `lo`, and so has `a`: so has every agent of
      the insertion. */
  lemma {:induction false} InsertBound(a: string, s: seq<string>, key: string -> nat, lo: nat)
    requires key(a) >= lo && forall i | 0 <= i < |s| :: key(s[i]) >= lo
    ensures forall i | 0 <= i < |Insert(a, s, key)| :: key(Insert(a, s, key)[i]) >= lo
  {
    if s != [] && key(a) >= key(s[0]) {
      InsertBound(a, s[1..], key, lo);
    }
  }

  lemma {:induction false} InsertSorted(a: string, s: seq<string>, key: string -> nat)
    requires SortedBy(s, key)
    ensures SortedBy(Insert(a, s, key), key)
  {
    if s != [] && key(a) >= key(s[0]) {
      var t := Insert(a, s[1..], key);
      InsertSorted(a, s[1..], key);
      InsertBound(a, s[1..], key, key(s[0]));
      var r := [s[0]] + t;
      assert r == Insert(a, s, key);
      forall i, j | 0 <= i < j < |r|
        ensures key(r[i]) <= key(r[j])
      {
        assert r[j] == t[j - 1];
        if i > 0 {
          assert r[i] == t[i - 1];
        }
      }
    }
  }

  lemma {:induction false} SortFromSorted(agents: seq<string>, k: nat, acc: seq<string>, key: string -> nat)
    requires k <= |agents| && SortedBy(acc, key)
    ensures SortedBy(SortFrom(agents, k, acc, key), key)
    decreases |agents| - k
  {
    if k < |agents| {
      InsertSorted(agents[k], acc, key);
      SortFromSorted(agents, k + 1, Insert(agents[k], acc, key), key);
    }
  }

  lemma {:induction false} SortFromPerm(agents: seq<string>, k: nat, acc: seq<string>, key: string -> nat)
    requires k <= |agents|
    ensures multiset(SortFrom(agents, k, acc, key)) == multiset(acc) + multiset(agents[k..])
    decreases |agents| - k
  {
    if k < |agents| {
      InsertPerm(agents[k], acc, key);
      SortFromPerm(agents, k + 1, Insert(agents[k], acc, key), key);
      assert agents[k..] == [agents[k]] + agents[k + 1..];
      assert multiset(agents[k..]) == multiset{agents[k]} + multiset(agents[k + 1..]);
    }
  }

  /** Inserting the agents one by one keeps the result sorted and loses or adds none. */
  lemma SortFromSpec(agents: seq<string>, k: nat, acc: seq<string>, key: string -> nat)
    requires k <= |agents| && SortedBy(acc, key)
    ensures SortedBy(SortFrom(agents, k, acc, key), key)
    ensures multiset(SortFrom(agents, k, acc, key)) == multiset(acc) + multiset(agents[k..])
  {
    SortFromSorted(agents, k, acc, key);
    SortFromPerm(agents, k, acc, key);
  }

  /** The agents of the metadata are in ascending order of their number and are exactly
      the agents collected, each as often. */
  lemma SortByKeySpec(agents: seq<string>)
    ensures SortedBy(SortByKey(agents), KeyOf)
    ensures multiset(SortByKey(agents)) == multiset(agents)
  {
    SortFromSpec(agents, 0, [], KeyOf);
    assert agents[0..] == agents;
  }

  /** Every agent of a timed line has a number exactly when the sort raises nothing. */
  lemma AgentsNumbered(d: Document)
    ensures FirstBadAgent(AgentsFrom(d.timing, d.lyrics, 0, []), 0).None? <==>
      forall j | 0 <= j < |d.lyrics| ::
        d.timing != Untimed && Present(d.lyrics[j].agent) ==> AgentKey(d.lyrics[j].agent.value).Some?
  {
    var agents := AgentsFrom(d.timing, d.lyrics, 0, []);
    AgentsSpec(d.timing, d.lyrics, 0, []);
    FirstBadSpec(agents, 0);
    if FirstBadAgent(agents, 0).None? {
      forall j | 0 <= j < |d.lyrics| && d.timing != Untimed && Present(d.lyrics[j].agent)
        ensures AgentKey(d.lyrics[j].agent.value).Some?
      {
        AgentSetHas(d.timing, d.lyrics, 0, j);
        var a := d.lyrics[j].agent.value;
        assert a in agents;
        var i :| 0 <= i < |agents| && agents[i] == a;
      }
    } else {
      var a := FirstBadAgent(agents, 0).value;
      assert agents[0..] == agents;
      assert a in AgentSet(d.timing, d.lyrics, 0);
      AgentSetFrom(d.timing, d.lyrics, 0, a);
      var j :| 0 <= j < |d.lyrics| && d.timing != Untimed && Present(d.lyrics[j].agent) && d.lyrics[j].agent.value == a;
      assert !AgentKey(d.lyrics[j].agent.value).Some?;
    }
  }

  /** A document is written exactly when its timing has a name, every line fits the
      timing and every agent of a timed line has a number. */
  lemma GeneratedOk(d: Document)
    ensures Generated(d).Success? <==>
      && TimingName(d.timing).Some?
      && (forall j | 0 <= j < |d.lyrics| :: Fits(d.timing, d.lyrics[j]))
      && (forall j | 0 <= j < |d.lyrics| ::
            d.timing != Untimed && Present(d.lyrics[j].agent) ==> AgentKey(d.lyrics[j].agent.value).Some?)
  {
    ParagraphsSpec(d.timing, d.lyrics);
    AgentsNumbered(d);
  }

  /** The tree of a written document: the timing's name on the root, one paragraph per
      line in order under `<body><div>`, and under `<head><metadata>` every agent of a
      timed line once, in ascending order of its number. */
  lemma GeneratedTree(d: Document)
    requires Generated(d).Success?
    ensures var agents := AgentsFrom(d.timing, d.lyrics, 0, []);
      var ps := Paragraphs(d.timing, d.lyrics).value;
      && Generated(d).value == Tree(TimingName(d.timing).value, AgentElements(SortByKey(agents)), ps)
      && |ps| == |d.lyrics|
      && (forall j | 0 <= j < |d.lyrics| :: ParagraphOf(d.timing, d.lyrics[j]) == Success(ps[j]))
      && Distinct(agents)
      && (forall a :: a in agents <==> a in AgentSet(d.timing, d.lyrics, 0))
      && SortedBy(SortByKey(agents), KeyOf) && multiset(SortByKey(agents)) == multiset(agents)
  {
    var agents := AgentsFrom(d.timing, d.lyrics, 0, []);
    ParagraphsSpec(d.timing, d.lyrics);
    AgentsSpec(d.timing, d.lyrics, 0, []);
    SortByKeySpec(agents);
  }
}
