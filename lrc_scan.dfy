/**
 * Scanners that stand in for the regular expressions of lrxy/converter/lrc.py:
 * the timestamp `\d{2}(?::\d{2})+\.\d+`, the line head `^(\[TS\](?:(v\d+):)?)? ?(.*)$`,
 * the word tag `<TS>([^<]*)`, the background span ` ?\[bg:(.*?)\]` and the metadata
 * line `^\[(\D+):(.*)\]$`. Each scanner reads left to right from a position, the way
 * `re.match` and `re.finditer` try a pattern.
 */
module LrcScan {
  import opened Wrappers
  import opened Text

  /** The first position at or after `from` that does not hold a decimal digit. */
  function DigitRunEnd(s: string, from: nat): (k: nat)
    requires from <= |s|
    ensures from <= k <= |s|
    decreases |s| - from
  {
    if from == |s| || !IsDigit(s[from]) then from else DigitRunEnd(s, from + 1)
  }

  lemma {:induction false} DigitRunEndSpec(s: string, from: nat)
    requires from <= |s|
    ensures var k := DigitRunEnd(s, from);
      (k < |s| ==> !IsDigit(s[k])) && forall i | from <= i < k :: IsDigit(s[i])
    decreases |s| - from
  {
    if from < |s| && IsDigit(s[from]) {
      DigitRunEndSpec(s, from + 1);
    }
  }

  /** The digit run from `from` ends at `k` when digits fill `[from, k)` and none is at `k`. */
  lemma DigitRunEndAt(s: string, from: nat, k: nat)
    requires from <= k <= |s| && (k < |s| ==> !IsDigit(s[k]))
    requires forall i | from <= i < k :: IsDigit(s[i])
    ensures DigitRunEnd(s, from) == k
  {
    DigitRunEndSpec(s, from);
  }

  /** After the leading two digits of a timestamp, as many `:dd` groups as follow. */
  function ColonGroupsEnd(s: string, j: nat): (k: nat)
    requires j <= |s|
    ensures j <= k <= |s|
    decreases |s| - j
  {
    if j + 3 <= |s| && s[j] == ':' && IsDigit(s[j + 1]) && IsDigit(s[j + 2])
    then ColonGroupsEnd(s, j + 3)
    else j
  }

  /** The end of the timestamp `\d{2}(?::\d{2})+\.\d+` that starts at `i`, if one does
      (SRT writes `,` where LRC writes `.`). The trailing digit run is taken whole:
      every pattern that uses a timestamp follows it with a character that is not a
      digit, and fewer `:dd` groups would leave a `:` where `sep` must be. */
  function StampEndWith(s: string, i: nat, sep: char): (r: Option<nat>)
    requires i <= |s|
    ensures r.Some? ==> i + 6 <= r.value <= |s|
  {
    if i + 2 <= |s| && IsDigit(s[i]) && IsDigit(s[i + 1]) then
      var k := ColonGroupsEnd(s, i + 2);
      if k > i + 2 && k < |s| && s[k] == sep then
        var e := DigitRunEnd(s, k + 1);
        if e > k + 1 then Some(e) else None
      else None
    else None
  }

  /** The LRC timestamp, with `.` before the fraction. */
  function StampEnd(s: string, i: nat): (r: Option<nat>)
    requires i <= |s|
    ensures r.Some? ==> i + 6 <= r.value <= |s|
  {
    StampEndWith(s, i, '.')
  }

  // ---------------------------------------------------------------------------
  // Word tags: re.finditer(r'<TS>([^<]*)', text)
  // ---------------------------------------------------------------------------

  /** One match of the word pattern: the timestamp text and the word text after it. */
  datatype Tag = Tag(stamp: string, text: string)

  /** A word tag `<TS>` starting at `i`: the position of its `>`. */
  function TagCloseAt(s: string, i: nat): (r: Option<nat>)
    requires i <= |s|
    ensures r.Some? ==> i + 7 <= r.value < |s| && s[i] == '<' && s[r.value] == '>'
  {
    if i < |s| && s[i] == '<' then
      match StampEnd(s, i + 1)
      case Some(e) => if e < |s| && s[e] == '>' then Some(e) else None
      case None => None
    else None
  }

  /** The word tags from position `i` on, in order and without overlap. */
  function WordScan(s: string, i: nat): (r: seq<Tag>)
    requires i <= |s|
    decreases |s| - i
  {
    if i == |s| then []
    else
      match TagCloseAt(s, i)
      case Some(e) =>
        var t := IndexFrom(s, '<', e + 1);
        [Tag(s[i + 1..e], s[e + 1..t])] + WordScan(s, t)
      case None => WordScan(s, i + 1)
  }

  function WordTags(s: string): seq<Tag>
  {
    WordScan(s, 0)
  }

  /** A word's text runs up to the next `<`, so it never holds one. */
  lemma {:induction false} WordTextsLackOpen(s: string, i: nat)
    requires i <= |s|
    ensures forall k | 0 <= k < |WordScan(s, i)| :: Lacks(WordScan(s, i)[k].text, '<')
    decreases |s| - i
  {
    if i < |s| {
      match TagCloseAt(s, i)
      case Some(e) =>
        var t := IndexFrom(s, '<', e + 1);
        IndexFromSpec(s, '<', e + 1);
        WordTextsLackOpen(s, t);
        var text := s[e + 1..t];
        assert Lacks(text, '<') by {
          forall j | 0 <= j < |text|
            ensures text[j] != '<'
          {
            assert text[j] == s[e + 1 + j];
          }
        }
      case None =>
        WordTextsLackOpen(s, i + 1);
    }
  }

  /** Text without `<` holds no word tag. */
  lemma {:induction false} NoTagsWithoutOpen(s: string, i: nat)
    requires i <= |s| && Lacks(s, '<')
    ensures WordScan(s, i) == []
    decreases |s| - i
  {
    if i < |s| {
      NoTagsWithoutOpen(s, i + 1);
    }
  }

  // ---------------------------------------------------------------------------
  // Background spans: re.finditer(r' ?\[bg:(.*?)\]', text)
  // ---------------------------------------------------------------------------

  /** One match of the background pattern: the whole match and the text inside. */
  datatype Span = Span(whole: string, inner: string)

  /** `[bg:` starts at position `i`. */
  predicate BgOpenAt(s: string, i: nat)
  {
    i + 4 <= |s| && s[i] == '[' && s[i + 1] == 'b' && s[i + 2] == 'g' && s[i + 3] == ':'
  }

  /** The span `[bg:...]` whose `[` is at `j`, matched from `i` (one space before `j`, or
      `i == j`): its closing `]` is the first one after the opening, as `.*?` asks. */
  function SpanFrom(s: string, i: nat, j: nat): (r: Option<(Span, nat)>)
    requires i <= j <= |s|
    ensures r.Some? ==> j + 5 <= r.value.1 <= |s|
  {
    if BgOpenAt(s, j) then
      var c := IndexFrom(s, ']', j + 4);
      if c < |s| then Some((Span(s[i..c + 1], s[j + 4..c]), c + 1)) else None
    else None
  }

  /** The background spans from position `i` on, in order and without overlap. */
  function BgScan(s: string, i: nat): (r: seq<Span>)
    requires i <= |s|
    decreases |s| - i
  {
    if i == |s| then []
    else
      var withSpace := if s[i] == ' ' then SpanFrom(s, i, i + 1) else None;
      var m := if withSpace.Some? then withSpace else SpanFrom(s, i, i);
      match m
      case Some((span, next)) => [span] + BgScan(s, next)
      case None => BgScan(s, i + 1)
  }

  function BgSpans(s: string): seq<Span>
  {
    BgScan(s, 0)
  }

  /** A span's inner text stops at the first `]`, so it holds none. */
  lemma SpanFromInner(s: string, i: nat, j: nat)
    requires i <= j <= |s| && SpanFrom(s, i, j).Some?
    ensures Lacks(SpanFrom(s, i, j).value.0.inner, ']')
  {
    var c := IndexFrom(s, ']', j + 4);
    IndexFromSpec(s, ']', j + 4);
    var inner := s[j + 4..c];
    forall k | 0 <= k < |inner|
      ensures inner[k] != ']'
    {
      assert inner[k] == s[j + 4 + k];
    }
  }

  /** Every span's inner text is free of `]`. */
  lemma {:induction false} SpanInnersLackClose(s: string, i: nat)
    requires i <= |s|
    ensures forall k | 0 <= k < |BgScan(s, i)| :: Lacks(BgScan(s, i)[k].inner, ']')
    decreases |s| - i
  {
    if i < |s| {
      var withSpace := if s[i] == ' ' then SpanFrom(s, i, i + 1) else None;
      var m := if withSpace.Some? then withSpace else SpanFrom(s, i, i);
      if withSpace.Some? {
        SpanFromInner(s, i, i + 1);
      } else if m.Some? {
        SpanFromInner(s, i, i);
      }
      match m
      case Some((span, next)) => SpanInnersLackClose(s, next);
      case None => SpanInnersLackClose(s, i + 1);
    }
  }

  lemma SpanFromNone(s: string, i: nat, j: nat)
    requires i <= j <= |s| && Lacks(s, ']')
    ensures SpanFrom(s, i, j).None?
  {
    if BgOpenAt(s, j) {
      IndexFromSpec(s, ']', j + 4);
    }
  }

  /** Text without `]` holds no background span. */
  lemma {:induction false} NoSpansWithoutClose(s: string, i: nat)
    requires i <= |s| && Lacks(s, ']')
    ensures BgScan(s, i) == []
    decreases |s| - i
  {
    if i < |s| {
      if i + 1 <= |s| {
        SpanFromNone(s, i, i + 1);
      }
      SpanFromNone(s, i, i);
      NoSpansWithoutClose(s, i + 1);
    }
  }

  // ---------------------------------------------------------------------------
  // Line head: re.match(r'^(\[TS\](?:(v\d+):)?)? ?(.*)$', line)
  // ---------------------------------------------------------------------------

  /** What the line pattern captures: no line tag, or the tag's timestamp and the
      optional agent; in both cases the rest after at most one space. */
  datatype Head =
    | Untagged(rest: string)
    | Tagged(stamp: string, agent: Option<string>, rest: string)

  /** The text from `pos` on, one leading space dropped (` ?(.*)`). */
  function RestFrom(l: string, pos: nat): string
    requires pos <= |l|
  {
    if pos < |l| && l[pos] == ' ' then l[pos + 1..] else l[pos..]
  }

  /** The position of the `]` closing a line tag `[TS]` at the start of `l`. */
  function LineTagClose(l: string): (r: Option<nat>)
    ensures r.Some? ==> 7 <= r.value < |l| && l[0] == '[' && l[r.value] == ']'
  {
    if |l| >= 1 && l[0] == '[' then
      match StampEnd(l, 1)
      case Some(e) => if e < |l| && l[e] == ']' then Some(e) else None
      case None => None
    else None
  }

  /** The position of the `:` ending an agent `v\d+:` that starts at `i`. */
  function AgentClose(l: string, i: nat): (r: Option<nat>)
    requires i <= |l|
    ensures r.Some? ==> i + 2 <= r.value < |l| && l[r.value] == ':'
  {
    if i < |l| && l[i] == 'v' then
      var d := DigitRunEnd(l, i + 1);
      if d > i + 1 && d < |l| && l[d] == ':' then Some(d) else None
    else None
  }

  function MatchLine(l: string): Head
  {
    match LineTagClose(l)
    case None => Untagged(RestFrom(l, 0))
    case Some(e) => TaggedHead(l, e)
  }

  /** The head of a line whose tag closes at `e`: the stamp, then the agent if one follows. */
  function TaggedHead(l: string, e: nat): Head
    requires 1 <= e < |l|
  {
    match AgentClose(l, e + 1)
    case Some(d) => Tagged(l[1..e], Some(l[e + 1..d]), RestFrom(l, d + 1))
    case None => Tagged(l[1..e], None, RestFrom(l, e + 1))
  }

  /** The text the line pattern consumed before its last group. */
  function HeadText(h: Head): string
  {
    match h
    case Untagged(_) => ""
    case Tagged(stamp, agent, _) => "[" + stamp + "]" + (if agent.Some? then agent.value + ":" else "")
  }

  lemma RestFromSplits(l: string, pos: nat)
    requires pos <= |l|
    ensures l[pos..] == RestFrom(l, pos) || l[pos..] == " " + RestFrom(l, pos)
  {
    if pos < |l| && l[pos] == ' ' {
      assert l[pos..] == " " + l[pos + 1..];
    }
  }

  /** A bracketed prefix and what follows it put back together. */
  lemma BracketSplit(l: string, e: nat)
    requires 1 <= e < |l| && l[0] == '[' && l[e] == ']'
    ensures l == "[" + l[1..e] + "]" + l[e + 1..]
  {
    assert l == l[..1] + l[1..e] + l[e..e + 1] + l[e + 1..];
  }

  lemma AgentSplit(t: string, d: nat)
    requires d < |t| && t[d] == ':'
    ensures t == t[..d] + ":" + t[d + 1..]
  {
    assert t == t[..d] + t[d..d + 1] + t[d + 1..];
  }

  lemma TaggedRebuild(l: string, e: nat, head: string, pos: nat, h: Head)
    requires 1 <= e < |l| && e + 1 <= pos <= |l| && l[0] == '[' && l[e] == ']'
    requires l[e + 1..] == head + l[pos..]
    requires h.Tagged? && h.stamp == l[1..e] && h.rest == RestFrom(l, pos)
    requires HeadText(h) == "[" + l[1..e] + "]" + head
    ensures l == HeadText(h) + h.rest || l == HeadText(h) + " " + h.rest
  {
    BracketSplit(l, e);
    RestFromSplits(l, pos);
  }

  /** The whole-line property, for one head. */
  predicate Rebuilds(l: string, h: Head)
  {
    l == HeadText(h) + h.rest || l == HeadText(h) + " " + h.rest
  }

  lemma AgentRebuild(l: string, e: nat, d: nat, h: Head)
    requires 1 <= e && e + 2 <= d < |l| && l[0] == '[' && l[e] == ']' && l[d] == ':'
    requires h == Tagged(l[1..e], Some(l[e + 1..d]), RestFrom(l, d + 1))
    ensures Rebuilds(l, h)
  {
    var t := l[e + 1..];
    AgentSplit(t, d - (e + 1));
    assert t[..d - (e + 1)] == l[e + 1..d];
    assert t[d - e..] == l[d + 1..];
    TaggedRebuild(l, e, l[e + 1..d] + ":", d + 1, h);
  }

  lemma PlainTagRebuild(l: string, e: nat, h: Head)
    requires 1 <= e < |l| && l[0] == '[' && l[e] == ']'
    requires h == Tagged(l[1..e], None, RestFrom(l, e + 1))
    ensures Rebuilds(l, h)
  {
    assert l[e + 1..] == "" + l[e + 1..];
    TaggedRebuild(l, e, "", e + 1, h);
  }

  lemma UntaggedRebuild(l: string, h: Head)
    requires h == Untagged(RestFrom(l, 0))
    ensures Rebuilds(l, h)
  {
    RestFromSplits(l, 0);
    assert l[0..] == l;
  }

  lemma UntaggedLineRebuild(l: string)
    requires LineTagClose(l).None?
    ensures Rebuilds(l, MatchLine(l))
  {
    UntaggedRebuild(l, MatchLine(l));
  }

  lemma AgentLineRebuild(l: string, e: nat, d: nat)
    requires 1 <= e < |l| && l[0] == '[' && l[e] == ']' && AgentClose(l, e + 1) == Some(d)
    ensures Rebuilds(l, TaggedHead(l, e))
  {
    AgentRebuild(l, e, d, TaggedHead(l, e));
  }

  lemma PlainTagLineRebuild(l: string, e: nat)
    requires 1 <= e < |l| && l[0] == '[' && l[e] == ']' && AgentClose(l, e + 1).None?
    ensures Rebuilds(l, TaggedHead(l, e))
  {
    PlainTagRebuild(l, e, TaggedHead(l, e));
  }

  /** The line is the consumed head, at most one space, and the rest: nothing is lost
      but that one space. */
  lemma MatchLineRebuild(l: string)
    ensures var h := MatchLine(l);
      l == HeadText(h) + h.rest || l == HeadText(h) + " " + h.rest
  {
    var tag := LineTagClose(l);
    if tag.None? {
      UntaggedLineRebuild(l);
    } else if AgentClose(l, tag.value + 1).Some? {
      AgentLineRebuild(l, tag.value, AgentClose(l, tag.value + 1).value);
    } else {
      PlainTagLineRebuild(l, tag.value);
    }
  }

  /** A line that does not open with `[` has no tag. */
  lemma UntaggedWithoutBracket(l: string)
    requires |l| == 0 || l[0] != '['
    ensures MatchLine(l).Untagged?
  {
  }

  // ---------------------------------------------------------------------------
  // Metadata lines: re.match(r'^\[(\D+):(.*)\]$', line)
  // ---------------------------------------------------------------------------

  /** The first position at or after `from` holding a decimal digit, or `|s|`. */
  function DigitFrom(s: string, from: nat): (k: nat)
    requires from <= |s|
    ensures from <= k <= |s|
    decreases |s| - from
  {
    if from == |s| || IsDigit(s[from]) then from else DigitFrom(s, from + 1)
  }

  lemma {:induction false} DigitFromSpec(s: string, from: nat)
    requires from <= |s|
    ensures var k := DigitFrom(s, from);
      (k < |s| ==> IsDigit(s[k])) && forall i | from <= i < k :: !IsDigit(s[i])
    decreases |s| - from
  {
    if from < |s| && !IsDigit(s[from]) {
      DigitFromSpec(s, from + 1);
    }
  }

  /** The metadata pattern read declaratively: `[`, at least one non-digit, a `:` that
      some such run reaches, anything, and a final `]`. */
  predicate MetadataShape(l: string)
  {
    |l| >= 4 && l[0] == '[' && l[|l| - 1] == ']'
    && exists p | 2 <= p <= |l| - 2 :: l[p] == ':' && forall i | 1 <= i < p :: !IsDigit(l[i])
  }

  /** The scanner: the first `:` from position 2 on closes the key, and no digit may come
      before it. */
  predicate IsMetadataLine(l: string)
  {
    |l| >= 4 && l[0] == '[' && l[|l| - 1] == ']'
    && var p := IndexFrom(l, ':', 2);
       p <= |l| - 2 && DigitFrom(l, 1) >= p
  }

  /** The scanner accepts exactly the lines the metadata pattern matches. */
  lemma MetadataScan(l: string)
    ensures IsMetadataLine(l) <==> MetadataShape(l)
  {
    if |l| >= 4 && l[0] == '[' && l[|l| - 1] == ']' {
      var p := IndexFrom(l, ':', 2);
      IndexFromSpec(l, ':', 2);
      DigitFromSpec(l, 1);
      if IsMetadataLine(l) {
        assert l[p] == ':' && forall i | 1 <= i < p :: !IsDigit(l[i]);
      }
      if MetadataShape(l) {
        var q :| 2 <= q <= |l| - 2 && l[q] == ':' && forall i | 1 <= i < q :: !IsDigit(l[i]);
        assert p <= q;
      }
    }
  }
}
