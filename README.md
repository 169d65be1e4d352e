# lrxy lyric converter — a Dafny model

lrxy converts time-synchronised song lyrics between LRC (enhanced, with word tags
`<mm:ss.xxx>`, duet agents `v1:` and background spans `[bg:...]`), TTML (Apple's XML
karaoke dialect), SRT subtitles and a JSON dump of its own document record. Every
format is parsed into one `Data` document:
- a timing: `Word`, `Line`, `None`, or whatever else a TTML root carries;
- a list of lines, each with optional begin and end times in milliseconds, an optional
  agent, a background flag, and either a text or a list of words.

Every format is also generated from that document. The `convert` dispatcher chains a
parser and a generator. The lyric providers add two small parsers for Musixmatch
replies and a selector for LRCLib records.

This project models that core:

| file | models |
|---|---|
| `wrappers.dfy`, `text.dfy` | `Option`/`Result`, and the string helpers the code relies on: digits, `split`, `splitlines`, `endswith`, zero padding |
| `lyrics.dfy` | the `Word`, `Line` and `Data` records of `utils.py`, the error kinds, and Python truthiness of times and agents |
| `time_codec.dfy` | `deformatTime` and `formatLrcTime`, with both loops, and the round trip between them |
| `lrc_scan.dfy` | the five regular expressions of `lrc.py` as scanners, with lemmas tying each to the pattern |
| `lrc_line.dfy`, `lrc_parse.dfy`, `lrc_generate.dfy` | `parseLrcLine`, `parse` and `generate` of `lrc.py` |
| `lrc_roundtrip.dfy` | what LRC `generate` writes, read back by `parseLrcLine`: agents, word spaces, word runs, the background line that does not come back, and the lines `parse` adds without checking them against the timing |
| `srt.dfy`, `srt_roundtrip.dfy` | `parse` and `generate` of `srt.py`, and the SRT round trip |
| `ttml_tree.dfy`, `ttml_repair.dfy`, `ttml_parse.dfy`, `ttml_generate.dfy`, `ttml_roundtrip.dfy` | the element tree, the `&` repair, `parseTtmlWbwLine`, `parseTtmlLine`, `parse`, `generate`, and the TTML round trip |
| `convert.dfy` | `convert` of `converter/main.py` |
| `musixmatch.dfy` | `richsync_parse` and `lyric_parse` |
| `lyric_select.dfy` | `get_lyric` |

Each loop of the source is a `method` whose `ensures` equates its result with a
recursive specification function, with one exception: the loop of ttml.py:150-159
that adds one metadata element per sorted agent is the function
`TtmlGenerate.AgentElements`, inside the tree that `generate` builds. The properties are proved as lemmas about those
functions:
- which inputs succeed and which raise;
- the shape of every line produced;
- the invariant of the LRC parser's timing mode;
- the ordering of TTML agents;
- round trips: time codec, SRT, TTML and the `&` repair, and for LRC the agent, the
  word spacing and the word adjacency run;
- the composition performed by `convert`.

Exceptions become `Result` failures, and every error kind is a constructor of
`Lyrics.Error`. Python `None` is `Option.None`. The source's falsy tests (`not x`
on a time, which is also true of `0`) are written out as `Falsy`/`Truthy`.

Where the prose description of lrxy and its code disagree, the model follows the code:
- `srt.parse` skips a block that does not match the block pattern rather than
  rejecting it.
- A line's begin is taken from its words or tags only when the line's own begin is
  absent or zero.
  - The TTML reader then takes the first non-zero word begin, not the first word's.
  - The LRC reader takes the time of each tag met before the first word while the
    begin is still falsy (lrc.py:43-45), so the first non-zero such time
    (`LrcLine.FirstTagBegin`). Every `[bg:…]` line gets its begin this way, since it
    starts without one.
- The end of a line-timed LRC line is the time of its last tag, not of its last word.
- Adjacent LRC word tags: `<00:01.000>Hel<00:01.200>lo<00:01.400> <00:01.600>world<00:01.800>`
  reads as four words, not two: `Hel` and `lo` each glued to what follows, an empty
  word that is not glued (from the tag whose text is one space), and `world`. Written
  back, these four words give the same text (`LrcRoundTrip.AdjacencyExample`).
- A background line written inside a `[bg:...]` span with its own line tag does not
  come back. In `Lead [bg:[00:10.00]Echo]` the lazy pattern of lrc.py:13 closes the
  span at the tag's `]`, so the span holds only `[00:10.00` and the main line's text
  becomes `LeadEcho]` (`LrcRoundTrip.NestedBackground`, `LrcRoundTrip.NestedParsed`).
- A document has one timing, and mixed shapes are an error, only for timed foreground
  lines: the shape check of lrc.py:152-163 looks at nothing else. Two kinds of line
  reach the document unchecked.
  - Background lines come in by `lines.extend(bgLines)` (lrc.py:164) whatever their
    content. `[t0]<t0>a<t1>b<t2> <t3>d<t4> [bg:Echo]` gives a `Word` document holding a
    background line whose content is the text `Echo`
    (`LrcRoundTrip.TextBackgroundInWordTimed`). `generate`'s word loop cannot write that
    line (lrc.py:91-95, `LrcRoundTrip.TextLineUnwritable`).
  - An untagged line is kept as an untimed line after a timed line whose begin is zero
    (lrc.py:126-136), and the timing stays. `[00:00.000]Hi` and then `more` give a
    `Line` document holding an untimed line `more` (`LrcRoundTrip.UntimedInLineTimed`).
    `generate` cannot open that line, as it has no begin (lrc.py:82).
- An untagged line after a timed line is not joined to the text before it. It is
  dropped when that line's begin is set and non-zero, and kept as a line of its own
  otherwise (lrc.py:125-137).
- The background flag of an untimed line is `None` rather than `false`. It is
  `Option<bool>` here.
- `convert` to SRT of an untimed document ends the program (`sys.exit(1)`) rather than
  returning an error. Here it is the `TimingRequired` error. The word-timing downgrade
  is only logged, so here it is not a value.

## Model

| member | source | states |
|---|---|---|
| TimeCodec.SumGroups | lrxy/converter/utils.py:30-35 | the loop sums the `:`-groups from the right, group i weighed by 60^i, and gives none as soon as one group cannot be read |
| TimeCodec.DeformatTime | lrxy/converter/utils.py:25-35 | the method computes `DecodeTime`: an absent timestamp stays absent, a trailing `s` after a digit is dropped, an unreadable group raises |
| TimeCodec.WeighedFails | lrxy/converter/utils.py:33-34 | once one group is unreadable, the whole sum is unreadable |
| TimeCodec.FormatLrcTime | lrxy/converter/utils.py:38-47 | the method, prepending one group per round, computes `FormatTime` |
| TimeCodec.FormatEndsWithMillis | lrxy/converter/utils.py:39 | every formatted time ends with the separator and three digits worth `milis % 1000` |
| TimeCodec.FormatOneColon | lrxy/converter/utils.py:38-47 | with one colon the text is minutes, seconds and milliseconds, with minutes modulo 3600 and every group zero-padded |
| TimeCodec.FormatTwoColons | lrxy/converter/utils.py:41-46 | with two colons the middle group is the total number of minutes modulo 3600, not minutes within the hour |
| TimeCodec.FormatTwoColonsExample | lrxy/converter/utils.py:41-46 | 1 h 1 min 1 s is written `00:61:01.000` with two colons |
| TimeCodec.ReadTwoGroups | lrxy/converter/utils.py:30-35 | two readable groups joined by `:` read as the first times 60 plus the second |
| TimeCodec.ReadThreeGroups | lrxy/converter/utils.py:30-35 | three readable groups read as hours, minutes and the last group |
| TimeCodec.RoundTripOneColon | lrxy/converter/utils.py:25-47 | reading back what `formatLrcTime(m)` wrote gives m, for every m below 60 hours |
| TimeCodec.RoundTripTwoColons | lrxy/converter/utils.py:25-47 | the same round trip for the two-colon form |
| TimeCodec.SecondsSuffixIgnored | lrxy/converter/utils.py:28-29 | a trailing `s` after a digit does not change the value read |
| TimeCodec.ReadTimeExample | lrxy/converter/utils.py:30-35 | `01:02.500` reads as 62,500 ms |
| LrcScan.MetadataScan | lrxy/converter/lrc.py:10 | the metadata scanner accepts a line exactly when the metadata pattern matches it |
| LrcScan.WordTextsLackOpen | lrxy/converter/lrc.py:12 | no word text found by the word pattern contains `<` |
| LrcScan.NoTagsWithoutOpen | lrxy/converter/lrc.py:12 | text without `<` holds no word tag |
| LrcScan.SpanInnersLackClose | lrxy/converter/lrc.py:13 | the lazy `.*?` stops each background span at the first `]`, so no inner text holds one |
| LrcScan.NoSpansWithoutClose | lrxy/converter/lrc.py:13 | text without `]` holds no background span |
| LrcScan.MatchLineRebuild | lrxy/converter/lrc.py:11 | the line pattern loses nothing but at most one space: the line is the consumed head, that space, and the rest |
| LrcScan.UntaggedWithoutBracket | lrxy/converter/lrc.py:11 | a line that does not open with `[` has no line tag |
| LrcLine.ParseWords | lrxy/converter/lrc.py:38-64 | the word loop computes `WordLine` |
| LrcLine.ReadStamp | lrxy/converter/lrc.py:40 | a tag's stamp reads as the time `deformatTime` gives it, and a stamp it cannot read fails the line |
| LrcLine.ApplyTag | lrxy/converter/lrc.py:41-57 | one tag ends the last word if it is still open, otherwise sets a falsy begin when there is no word yet, and appends a word only for non-empty text; the line state afterwards is the one the tag step defines |
| LrcLine.ParseBackground | lrxy/converter/lrc.py:30-36 | the background loop gives one line per span and the text with every span removed |
| LrcLine.ParseLrcLine | lrxy/converter/lrc.py:16-66 | the method computes `ParsedLine` |
| LrcLine.TagStepEffect | lrxy/converter/lrc.py:39-57 | a tag closes the previous word only when that word's end is falsy, adds a word only for non-empty text, and sets the begin only before the first word and only when it is falsy |
| LrcLine.NewWordText | lrxy/converter/lrc.py:51-56 | a word is glued to the next (`part`) exactly when its text does not end in a space, and only that one space is dropped |
| LrcLine.WordCount | lrxy/converter/lrc.py:47-57 | the words are exactly one per tag with non-empty text |
| LrcLine.LastTagTime | lrxy/converter/lrc.py:38-40 | after the loop, `time` is the time of the last tag |
| LrcLine.ChainedWords | lrxy/converter/lrc.py:41-43 | every word has a begin, and every word but the last has an end |
| LrcLine.BeginKept | lrxy/converter/lrc.py:44-45 | a truthy begin given to the loop is kept |
| LrcLine.FirstTagBegin | lrxy/converter/lrc.py:44-45 | without a begin, the first tag's non-zero time becomes the begin |
| LrcLine.WordLineShape | lrxy/converter/lrc.py:38-64 | the content is words exactly when some tag has text, otherwise the text verbatim; the end is the last tag's time when that is non-zero |
| LrcLine.PlainTextLine | lrxy/converter/lrc.py:63-64 | text without `<` stays text, with no end |
| LrcLine.BgLinesShape | lrxy/converter/lrc.py:31-33 | the background lines come one per span, in order, each marked background and without agent |
| LrcLine.NestedSpansDiscarded | lrxy/converter/lrc.py:32 | the recursive call on a span's inner text finds no spans of its own, so the discarded second result is always empty |
| LrcLine.ParsedLineShape | lrxy/converter/lrc.py:16-66 | the parent line keeps its agent and flag, and one background line follows per span, in order |
| LrcLine.NoSpansNoStrip | lrxy/converter/lrc.py:31-36 | without a span the word loop sees the text as given |
| LrcParse.Parse | lrxy/converter/lrc.py:117-171 | the loop, which patches the last line's end in place, computes `Parsed` |
| LrcParse.MetadataSkipped | lrxy/converter/lrc.py:121-122 | a metadata line changes nothing |
| LrcParse.UntaggedLine | lrxy/converter/lrc.py:125-137 | an untagged line is kept exactly when there is no line yet or the last line's begin is falsy, and keeping it turns an unset timing into `None` |
| LrcParse.TimedAfterUntimed | lrxy/converter/lrc.py:138-139 | a timed line after untimed ones raises `ParseLyricError('lrc')` |
| LrcParse.ShapeMustMatch | lrxy/converter/lrc.py:152-163 | a timed line whose content shape differs from the fixed timing raises, and one of the same shape keeps the timing |
| LrcParse.TimedAccepted | lrxy/converter/lrc.py:141-164 | a timed line whose stamp and content read, and whose shape agrees with the timing or fixes it, is accepted with its background lines, whatever their content |
| LrcParse.CloseLastEffect | lrxy/converter/lrc.py:149-150 | closing the last line changes only its end, and only when that end is falsy |
| LrcParse.TimedLine | lrxy/converter/lrc.py:141-164 | a timed line closes the last stored line with its own begin, then comes itself with its agent, then its background lines |
| LrcParse.ConsistentTimed | lrxy/converter/lrc.py:149-164 | a timed line of the right shape, with its background lines, keeps the single-timing invariant |
| LrcParse.ConsistentStep | lrxy/converter/lrc.py:120-164 | every iteration keeps the invariant and never changes a timing once fixed |
| LrcParse.ConsistentFold | lrxy/converter/lrc.py:120-164 | the whole loop keeps the invariant |
| LrcParse.ParsedConsistent | lrxy/converter/lrc.py:117-171 | a parsed document has one timing mode over its timed foreground lines: under `Word` they all carry words, under `Line` they all carry text; `None` means all lines are untimed, and unset means no lines. Background lines and untagged lines kept under `Word` or `Line` timing are not checked, as in the source |
| LrcGenerate.AppendWord | lrxy/converter/lrc.py:91-100 | one round of the word loop computes `WordOut` |
| LrcGenerate.AppendWords | lrxy/converter/lrc.py:91-100 | the word loop computes `WordsOut` |
| LrcGenerate.AppendBody | lrxy/converter/lrc.py:88-104 | the body of a line computes `Body` |
| LrcGenerate.AppendOpening | lrxy/converter/lrc.py:81-86 | the opening of a line computes `Opening` |
| LrcGenerate.AppendLine | lrxy/converter/lrc.py:72-109 | one round of the line loop computes `LineOut` |
| LrcGenerate.Generate | lrxy/converter/lrc.py:69-114 | the method computes `Generated` |
| LrcGenerate.UntimedLines | lrxy/converter/lrc.py:73-75 | under `None` timing the loop appends each line's text and a line break, and leaves `lastLineEnd` alone |
| LrcGenerate.UntimedGenerated | lrxy/converter/lrc.py:73-75 | an untimed document is written as its texts, one per line, with no marker |
| LrcGenerate.LastEndAfterLines | lrxy/converter/lrc.py:79 | a timed loop ends with `lastLineEnd` the last line's end |
| LrcGenerate.TrailingMarker | lrxy/converter/lrc.py:111-112 | after the lines comes the marker of the last line's end exactly when that end is truthy and differs from its begin |
| LrcGenerate.WordOutEnds | lrxy/converter/lrc.py:100 | a word's output extends what was there and ends with its end tag |
| LrcGenerate.SharedWordTag | lrxy/converter/lrc.py:92-94 | when a word ends where the next begins, the next word's begin tag is not written twice |
| LrcGenerate.WordsOutEnds | lrxy/converter/lrc.py:91-100 | the word loop extends what was there and ends with the last word's end tag |
| LrcGenerate.LineEndNotRepeated | lrxy/converter/lrc.py:102-104 | when the last word ends where the line ends, the line-end tag is not written again |
| LrcGenerate.BodyExtends | lrxy/converter/lrc.py:88-104 | a body extends the opening before it |
| LrcGenerate.OpeningStarts | lrxy/converter/lrc.py:81-86 | a foreground line opens with `[begin]`, and a background line replaces the previous line break with ` [bg:` |
| LrcGenerate.TimedLineOut | lrxy/converter/lrc.py:77-109 | a timed line writes a gap marker when the previous end leaves a gap, then its opening, and ends with `]` for background lines and always with a line break; its end becomes `lastLineEnd` |
| LrcRoundTrip.LrcTimeShape | lrxy/converter/utils.py:38-47 | a time below 100 minutes is written as nine characters `mm:ss.xxx`, the shape the timestamp pattern of lrc.py:9 takes |
| LrcRoundTrip.LrcReadTime | lrxy/converter/utils.py:25-47 | such a written stamp reads back as the same time |
| LrcRoundTrip.LrcStampAt | lrxy/converter/lrc.py:9 | the timestamp pattern matched at a `mm:ss.xxx` stamp ends right after it, when no digit follows |
| LrcRoundTrip.AgentReadBack | lrxy/converter/lrc.py:81-84 | a foreground line with a `vN` agent opens with `[begin]vN:`, and the line pattern of lrc.py:11 reads back that stamp and agent and drops one space before the rest |
| LrcRoundTrip.NewWordSpace | lrxy/converter/lrc.py:51-56 | a word text followed by one space reads as that text, not glued; without the space it reads as glued |
| LrcRoundTrip.WordSpacing | lrxy/converter/lrc.py:91-100 | the writer puts a space after a word exactly when it is not `part` and differs from the line's last word, and the reader (lrc.py:51-56) turns that text back into a word that is glued exactly when the original was, or was equal to the last word |
| LrcRoundTrip.ScanSpelled | lrxy/converter/lrc.py:12 | tags written one after the other as `<stamp>text`, with `mm:ss.xxx` stamps and texts without `<`, are found back by the word pattern, in order |
| LrcRoundTrip.RunScan | lrxy/converter/lrc.py:12 | the run `<t0>a<t1>b<t2> <t3>d<t4>` is five word tags, the third with text one space and the last with none |
| LrcRoundTrip.RunRead | lrxy/converter/lrc.py:38-57 | the word loop reads those tags as four words: `a` and `b` glued, an empty word that is not, and `d`; each ends where the next tag begins, and the begin is the first tag's time unless the line has a truthy one |
| LrcRoundTrip.RunLine | lrxy/converter/lrc.py:38-64 | the run is read as a word line with those four words, ending at the last tag |
| LrcRoundTrip.RunWritten | lrxy/converter/lrc.py:91-100 | the word loop writes those four words back as the run: each begin tag after the first is the end tag just written and is not repeated, and only the empty word gets a space |
| LrcRoundTrip.WordAdjacency | lrxy/converter/lrc.py:88-104 | for any times below 100 minutes, the last non-zero, and any texts without `<` or trailing space, the run is read by lrc.py:38-64 as those four words and the body written for them is the run again, after any opening that does not end in `>` |
| LrcRoundTrip.AdjacencyExample | lrxy/converter/lrc.py:88-104 | `<00:01.000>Hel<00:01.200>lo<00:01.400> <00:01.600>world<00:01.800>` reads (lrc.py:38-64) as `Hel` and `lo` glued, an empty word and `world`, from 1000 to 1800 ms, and is written back unchanged |
| LrcRoundTrip.NestedBackground | lrxy/converter/lrc.py:13 | in `Lead [bg:[00:10.00]Echo]` the lazy background pattern closes at the line tag's `]`: one span ` [bg:[00:10.00]` whose inner text is `[00:10.00` |
| LrcRoundTrip.NestedParsed | lrxy/converter/lrc.py:30-64 | that line is parsed as a main line whose text is `LeadEcho]` and one background line whose text is `[00:10.00`, with neither begin nor end |
| LrcRoundTrip.LineWithTextSpan | lrxy/converter/lrc.py:30-36 | a text without `[` followed by ` [bg:inner]` reads as the line of that text alone and one background line holding `inner` as text |
| LrcRoundTrip.TextBackgroundInWordTimed | lrxy/converter/lrc.py:141-164 | a `Word`-timed line with a background span of plain text is accepted under unset or `Word` timing; the document keeps `Word` timing and gains a background line with text and no words |
| LrcRoundTrip.TextLineUnwritable | lrxy/converter/lrc.py:88-104 | under `Word` timing the writer fails on a line whose content is non-empty text |
| LrcRoundTrip.UntimedInLineTimed | lrxy/converter/lrc.py:117-171 | `[f]a` then `b`, with `f` reading as zero, parses as a `Line` document of the timed line and the untimed line `b`, which the writer cannot open |
| Srt.MatchBlockShape | lrxy/converter/srt.py:9 | a block match rebuilds the start of the block: number, times around the arrow, and the text, which is the whole next line |
| Srt.CutsFacts | lrxy/converter/srt.py:9 | the match cuts fall after a non-empty digit run, on the line breaks, at the arrow and on the first line break after the times (or the end) |
| Srt.Parse | lrxy/converter/srt.py:36-63 | the loop computes `Parsed` |
| Srt.NumberedAt | lrxy/converter/srt.py:45-49 | blocks that pass the numbering check carry the numbers 1, 2, 3, … in turn |
| Srt.BlocksFromMatches | lrxy/converter/srt.py:40-43 | skipping non-matching blocks changes nothing: the loop over all blocks is the loop over the matched ones |
| Srt.StepsRead | lrxy/converter/srt.py:44-57 | the loop over matched blocks succeeds exactly when they are numbered on and all their times read, and it then appends one line per block, in order |
| Srt.ParsedBlocks | lrxy/converter/srt.py:36-63 | `parse` succeeds exactly when the matching blocks are numbered 1, 2, 3, … and their times read; each gives a line with its times and text, no agent, not background, under `Line` timing |
| Srt.JoinWords | lrxy/converter/srt.py:26-30 | the inner loop computes `JoinedFrom` |
| Srt.AppendBlock | lrxy/converter/srt.py:17-31 | one round of the block loop computes `BlockOut` |
| Srt.Generate | lrxy/converter/srt.py:14-33 | the method computes `Generated` |
| Srt.JoinedFromSpelled | lrxy/converter/srt.py:26-30 | joining appends each word's text, with a space after every word that is not `part` and not equal to the last |
| Srt.SpelledEndsWithLast | lrxy/converter/srt.py:29 | no space follows the last word |
| Srt.BlockBodyText | lrxy/converter/srt.py:23-31 | under `Word` timing the block text is the words joined on one line; under `Line` timing it is written exactly when the content is text; any other timing writes no text |
| Srt.BlockOutExtends | lrxy/converter/srt.py:17-31 | a block is written exactly when its line has both times and content of the right shape, and it extends the output |
| Srt.BlocksOutSucceeds | lrxy/converter/srt.py:16-33 | `generate` succeeds exactly when it can write every line |
| SrtRoundTrip.SrtTimeShape | lrxy/converter/srt.py:7 | an SRT time below 100 minutes is twelve characters of the timestamp pattern |
| SrtRoundTrip.SrtReadTime | lrxy/converter/srt.py:51-52 | an SRT time below 100 minutes reads back as itself |
| SrtRoundTrip.MatchCore | lrxy/converter/srt.py:9 | a number, two SRT times and one line of text are matched as exactly those four groups |
| SrtRoundTrip.SplitJoinBlocks | lrxy/converter/srt.py:37 | blocks without blank lines, joined by blank lines, split back into themselves |
| SrtRoundTrip.CoreMatch | lrxy/converter/srt.py:41 | the block written for a line matches as that line's number, times and text |
| SrtRoundTrip.MatchesCores | lrxy/converter/srt.py:40-43 | the blocks matched in the written text are the blocks of the lines |
| SrtRoundTrip.CoreBlocksNumbered | lrxy/converter/srt.py:16-17 | the blocks written are numbered consecutively from 1 |
| SrtRoundTrip.ParseCores | lrxy/converter/srt.py:36-63 | `parse` reads the text written for writable lines back as those lines, without agent and not background |
| SrtRoundTrip.RoundTrip | lrxy/converter/srt.py:14-63 | `parse(generate(d))` under `Line` timing gives back every line's times and text, for times below 100 minutes and one-line texts |
| TtmlRepair.RepairEscapes | lrxy/converter/ttml.py:65 | after the repair every `&` starts a character reference |
| TtmlRepair.EscapedKept | lrxy/converter/ttml.py:65 | text whose every `&` starts a reference comes through unchanged |
| TtmlRepair.RepairLength | lrxy/converter/ttml.py:65 | each bare `&` replaced grows the text by four characters |
| TtmlRepair.EntityKept | lrxy/converter/ttml.py:65 | a reference is still a reference after the repair |
| TtmlRepair.RepairUnchanged | lrxy/converter/ttml.py:65 | the repair leaves a text unchanged exactly when every `&` already starts a reference |
| TtmlRepair.RepairIdempotent | lrxy/converter/ttml.py:65 | repairing twice is repairing once |
| TtmlParse.ParseWbwLine | lrxy/converter/ttml.py:9-44 | the child loop computes `WbwLine` |
| TtmlParse.ReadWordLines | lrxy/converter/ttml.py:73-77 | the `Word` loop computes `LinesFrom` under word timing |
| TtmlParse.ReadLines | lrxy/converter/ttml.py:78-81 | the `Line` loop computes `LinesFrom` under line timing |
| TtmlParse.ReadUntimedLines | lrxy/converter/ttml.py:82-91 | the `None` loop computes `LinesFrom` and never fails |
| TtmlParse.Parse | lrxy/converter/ttml.py:58-98 | the method computes `Parsed`: repair, XML parse, read |
| TtmlParse.ReadParagraphs | lrxy/converter/ttml.py:69-98 | the part after the XML parser computes `ReadTree` |
| TtmlParse.BeginPrepend | lrxy/converter/ttml.py:28-30 | the begin fallback over one more word is the fallback over the longer word list |
| TtmlParse.StepOk | lrxy/converter/ttml.py:23-37 | a child is read exactly when it can be: a background span becomes a line, any other child a word, and the first non-zero word begin fills a falsy line begin |
| TtmlParse.WalkOk | lrxy/converter/ttml.py:23-37 | the walk fails exactly when some child cannot be read |
| TtmlParse.WalkSpec | lrxy/converter/ttml.py:23-37 | the walk gathers the words of the non-background children and the lines of the background ones, in order |
| TtmlParse.WbwLineOk | lrxy/converter/ttml.py:9-44 | a word-timed `<p>` is read exactly when all its times and children can be read and it has a truthy end or a word to take one from |
| TtmlParse.WbwLineSpec | lrxy/converter/ttml.py:9-44 | a word-timed line's words are its non-background children in order; its begin and end fall back on the first non-zero word begin and the last word's end |
| TtmlParse.BgLinesMarked | lrxy/converter/ttml.py:24-26 | every line read from a background span is marked background |
| TtmlParse.UnknownReadsNothing | lrxy/converter/ttml.py:73-91 | under an unknown timing no paragraph is read |
| TtmlParse.LinesOk | lrxy/converter/ttml.py:73-91 | the paragraphs are read exactly when each of them can be |
| TtmlParse.OneLineEach | lrxy/converter/ttml.py:78-91 | under line or no timing each paragraph gives exactly one line, in order |
| TtmlParse.WordLines | lrxy/converter/ttml.py:73-77 | under word timing the lines are each paragraph's line followed by its background lines |
| TtmlParse.ReadWordTimed | lrxy/converter/ttml.py:73-77 | a word-timed document is read exactly when every paragraph is, as each paragraph's line and then its background lines |
| TtmlParse.ReadLineTimed | lrxy/converter/ttml.py:47-55 | a line-timed document is read exactly when every paragraph's times read, one line per paragraph in order |
| TtmlParse.ReadUntimed | lrxy/converter/ttml.py:82-91 | an untimed document is always read, one text line per paragraph |
| TtmlParse.ReadUnknown | lrxy/converter/ttml.py:69-98 | any other timing attribute, or none, reads no line and keeps the attribute |
| TtmlParse.ParsedRepaired | lrxy/converter/ttml.py:65-68 | parsing repaired text is parsing the text itself |
| TtmlParse.ContributionIgnoresTail | lrxy/converter/ttml.py:9-55 | what a `<p>` gives under any timing does not depend on the paragraph's own tail |
| TtmlParse.ReadTreeTailsAside | lrxy/converter/ttml.py:69-98 | two trees with the same root `timing` and the same `<p>` elements, tails aside, read as the same document |
| TtmlGenerate.BuildSpan | lrxy/converter/ttml.py:142-148 | the span of a word computes `SpanOf` |
| TtmlGenerate.WordSpans | lrxy/converter/ttml.py:141-148 | the word loop computes `Collect(SpanOf, …)` |
| TtmlGenerate.BuildParagraph | lrxy/converter/ttml.py:123-148 | one round of the line loop computes `ParagraphOf` |
| TtmlGenerate.Generate | lrxy/converter/ttml.py:109-160 | the method computes `Generated` |
| TtmlGenerate.AgentElements | lrxy/converter/ttml.py:150-159 | one `ttm:agent` element per agent, in order, whose `xml:id` is the agent and whose `type` is `person` exactly for `v1` and `v2` and `group` for every other agent, with no other attribute |
| Wrappers.CollectSpec | lrxy/converter/ttml.py:141-148 | the element loop succeeds exactly when every item can be built, and then appends one element per item in order |
| TtmlGenerate.ParagraphOk | lrxy/converter/ttml.py:122-148 | a line's paragraph is written exactly when the line fits the timing |
| TtmlGenerate.ParagraphsSpec | lrxy/converter/ttml.py:122-148 | the paragraphs are written exactly when every line fits, one per line in order |
| TtmlGenerate.AgentsSpec | lrxy/converter/ttml.py:134-136 | the agents collected are distinct and are exactly the truthy agents of the timed lines |
| TtmlGenerate.FirstBadSpec | lrxy/converter/ttml.py:150 | the sort raises on an agent whose number `int` cannot read, and on none when every one can |
| TtmlGenerate.SortFromSpec | lrxy/converter/ttml.py:150 | inserting agents one by one keeps them sorted by number and is a permutation |
| TtmlGenerate.SortByKeySpec | lrxy/converter/ttml.py:150 | the metadata agents are in ascending order of their number and are a permutation of the agents collected |
| TtmlGenerate.AgentsNumbered | lrxy/converter/ttml.py:120-150 | the sort raises nothing exactly when every agent of a timed line has a number |
| TtmlGenerate.GeneratedOk | lrxy/converter/ttml.py:101-160 | a document is written exactly when its timing has a name, every line fits the timing and every agent has a number |
| TtmlGenerate.GeneratedTree | lrxy/converter/ttml.py:109-159 | the tree has the timing on the root, one paragraph per line in order, and every agent once in ascending order of number |
| TtmlRoundTrip.StampReads | lrxy/converter/ttml.py:129-130 | a time below 60 hours written by `formatLrcTime` reads back as itself |
| TtmlRoundTrip.AttrsRead | lrxy/converter/ttml.py:128-136 | the reader finds the written times, role and agent on a paragraph |
| TtmlRoundTrip.LineParagraphRead | lrxy/converter/ttml.py:128-139 | a line-timed paragraph reads back as its line |
| TtmlRoundTrip.SpanRead | lrxy/converter/ttml.py:142-148 | a word's span reads back as the word |
| TtmlRoundTrip.SpansBack | lrxy/converter/ttml.py:141-148 | the spans of words whose times fit read back as those words, one per word in order |
| TtmlRoundTrip.WordParagraphRead | lrxy/converter/ttml.py:128-148 | a word-timed paragraph with truthy times reads back as its line, with no background line |
| TtmlRoundTrip.ParagraphFlat | lrxy/converter/ttml.py:122-148 | a written paragraph holds no paragraph, so the `//p` search finds only the paragraphs under the `div` |
| TtmlRoundTrip.TreeRead | lrxy/converter/ttml.py:69-98 | a tree of flat paragraphs reads back as the lines they give |
| TtmlRoundTrip.WrittenRead | lrxy/converter/ttml.py:109-148 | a written tree reads back as the lines its paragraphs give |
| TtmlRoundTrip.LineTimedRoundTrip | lrxy/converter/ttml.py:58-160 | a line-timed document of readable text lines with numbered agents is written, and reads back unchanged |
| TtmlRoundTrip.WordTimedRoundTrip | lrxy/converter/ttml.py:9-160 | a word-timed document of readable lines with truthy times, word times that fit, and numbered agents is written, and reads back unchanged |
| TtmlRoundTrip.UntimedRoundTrip | lrxy/converter/ttml.py:82-126 | an untimed document of text lines reads back unchanged |
| TtmlRoundTrip.UnknownTimingRead | lrxy/converter/ttml.py:69-98 | under another timing the timing reads back and the lines do not |
| TtmlRoundTrip.PrettyParagraphs | lrxy/converter/ttml.py:161-166 | where no `<p>` has children, the tree `pretty_print` writes holds the same paragraphs, tails aside |
| TtmlRoundTrip.PrettyLineTimedRead | lrxy/converter/ttml.py:161-166 | a line-timed document written with `pretty_print` keeps its root `timing` and its paragraphs, tails aside, and reads back unchanged |
| TtmlRoundTrip.PrettyUnglues | lrxy/converter/ttml.py:161-166 | in a `<p>` whose spans all lack a tail (every word `part`), `pretty_print` gives each span a tail holding a space, which the reader of ttml.py:34 takes as not `part` |
| Converter.Read | lrxy/converter/main.py:146-156 | any format other than lrc, ttml, srt or json raises `UnsupportedFileFormatError` |
| Converter.Convert | lrxy/converter/main.py:137-182 | identical formats return the input; an unreadable format or a failed parse is the result |
| Converter.Composes | lrxy/converter/main.py:146-179 | the result is the target generator applied to the parsed document, and JSON for any other target |
| Converter.SrtTiming | lrxy/converter/main.py:164-177 | conversion to SRT fails for lack of timing exactly when the document is untimed; a word-timed one is written |
| Converter.SrtNeverAsksTiming | lrxy/converter/srt.py:14-33 | the SRT generator itself never reports a missing timing |
| Converter.UntimedLrcToSrt | lrxy/converter/main.py:164-170 | an LRC text without timestamps does not convert to SRT |
| Converter.SrtToJson | lrxy/converter/main.py:151-179 | SRT written for writable lines converts to the JSON of those lines without agent and background |
| Converter.TtmlToJson | lrxy/converter/main.py:149-179 | TTML written from a readable line-timed document converts to the JSON of that document, given an XML library that escapes `&` and reads back the root `timing` and the `<p>` elements it wrote, whatever whitespace it puts around them |
| Musixmatch.IntOfDigits | lrxy/providers/musixmatch.py:74-75 | `int` of the decimal spelling of any number gives back that number |
| Musixmatch.IntAppend | lrxy/providers/musixmatch.py:74-75 | a digit appended to a readable time gives ten times its value plus the digit, and any other character makes it raise |
| Musixmatch.ReadWords | lrxy/providers/musixmatch.py:71-79 | the word loop builds the words in order, stopping at the first that raises |
| Musixmatch.RichsyncParse | lrxy/providers/musixmatch.py:69-88 | the nested loops compute `Richsync` |
| Musixmatch.PrefixStops | lrxy/providers/musixmatch.py:69-88 | once an item raises, the loop raises that error whatever follows |
| Musixmatch.PrefixSpec | lrxy/providers/musixmatch.py:69-88 | the loop succeeds exactly when no item raises, and then gives one result per item in order |
| Musixmatch.RichLineSpec | lrxy/providers/musixmatch.py:71-87 | a richsync line is read exactly when its times and its words' times are numbers; it then has one word per richsync word, no agent and not background |
| Musixmatch.RichsyncSpec | lrxy/providers/musixmatch.py:69-88 | `richsync_parse` succeeds exactly when every time is a number, and then gives one line per richsync line in order |
| Musixmatch.CloseLast | lrxy/providers/musixmatch.py:132-133 | only the last line's end changes, and it becomes the given time |
| Musixmatch.LyricParse | lrxy/providers/musixmatch.py:123-136 | the loop computes `LyricLines` |
| Musixmatch.KeptSpec | lrxy/providers/musixmatch.py:134-135 | the kept entries are exactly those with non-empty text, each once, in input order |
| Musixmatch.ChainKeep | lrxy/providers/musixmatch.py:132-135 | a round that keeps its entry closes the last kept line at its begin and extends the chain |
| Musixmatch.ChainDrop | lrxy/providers/musixmatch.py:132-133 | a round whose text is empty still closes the last kept line at its begin |
| Musixmatch.LyricLinesChained | lrxy/providers/musixmatch.py:123-136 | the loop's invariant holds after every round |
| Musixmatch.LyricParseSpec | lrxy/providers/musixmatch.py:123-136 | one line per non-empty entry in order, each ending where the next begins; the last has no end exactly when it is the final entry, otherwise it ends at the final entry's begin |
| LyricSelect.GetLyric | lrxy/modules.py:65-79 | each option selects its text, `auto` prefers a truthy synced text, and any other option gives `None` |
| LyricSelect.FromRecord | lrxy/modules.py:73-79 | the answer is always one of the record's two texts or `None` |
| LyricSelect.MissingIsNone | lrxy/modules.py:70-71 | a missing key behaves as a key holding `None` |
| LyricSelect.EmptyRecord | lrxy/modules.py:70-79 | a record holding neither text gives `None` for every option |
| LyricSelect.AutoFindsText | lrxy/modules.py:74 | `auto` gives some text exactly when either text is present and non-empty |

## Left out

- `float(group)` in `deformatTime` is read as an exact decimal truncated to
  milliseconds. Binary floating-point rounding is not modelled. Signs, exponents,
  whitespace, `inf` and `nan`, which `float` accepts, are refused here.
- `\d` and `int()` are modelled on ASCII digits only, with no Unicode digits, signs,
  whitespace or underscores.
- `str.splitlines` is modelled on `\n`, `\r` and `\r\n`. The rarer separators are not
  modelled: `\v`, `\f`, `\x1c`–`\x1e`, `\x85`, `\u2028`, `\u2029`.
- lrxy/converter/utils.py defines neither `deformat_time` nor `format_time`, which
  srt.py:5 imports, so `srt.py` as written fails at import. The SRT codec here rests
  on reconstructed helpers.
  - `deformat_time(…, srt=True)` is modelled as `deformatTime` with `,` as the
    sub-second separator.
  - `format_time(…, srt=True)` is modelled as `formatLrcTime` with two colons and `,`.
- lxml is not part of this model. The TTML parser and `convert` take an `XmlReader`
  parameter for `etree.fromstring`; `convert` takes `Codecs` for `etree.tostring`,
  `json.loads` and `json.dumps`.
  - Tags of the TTML namespace are kept by their local names (`tt`, `p`, `span`); the
    agent tag and every attribute are kept by their full `{namespace}name`, as lxml
    reports them. Namespace declarations and the XML declaration are not modelled.
    Pretty printing is `TtmlGenerate.Pretty`.
  - Absent `text`/`tail` is the empty string, where lxml gives `None`. For a tail this
    changes nothing: the reader tests only `not tail`. A text, though, is copied into
    the document (ttml.py:35, 53 and 89). An empty `<p>` or `<span>` then gives the
    source a `None` content or word text, which later raises `TypeError`:
    - in LRC `generate` (lrc.py:74, lrc.py:89 and the word loop);
    - in SRT `generate` of words (srt.py:28).
    SRT `generate` of a line writes the word `None` (srt.py:24), and JSON writes `null`.
    The model reads the empty string and converts such a file without error.
  - `etree.XMLParser(recover=True)` is built but never used by the source, so it is
    not modelled.
  - `.encode()` of the repaired text is not modelled.
- `json.loads` output is taken as a document, with no validation of its fields.
- Logging and the debug messages of `convert` are not modelled. The word-timing
  downgrade warning, which is only logged, is therefore not a value.
- `sys.exit(1)` in `convert` is the `TimingRequired` error value.
- The iteration order of the `agents` set is hashing order in Python. Here it is
  first-appearance order; it matters only for agents with equal numbers, like `v1`
  and `v01`.
- Python type errors are error values. This covers formatting an absent time, and
  content of the wrong shape for the timing.
  - `srt.generate` under `Line` timing of a line whose content is a word list would
    write the list's `repr`; here it is an error.
  - `ttml.generate` of a document whose timing is `None` (LRC text without lyric
    lines) is an error, as lxml refuses a `None` attribute.
- `Musixmatch.LyricParse`: `total * 1000` is not modelled. Entries carry the time
  already in milliseconds, as a natural number, because the float multiplication is
  out of scope.
- `Musixmatch.Int`: the times are modelled as digit strings. `int()` of a JSON number
  is left out.
- `LyricSelect.GetLyric`: the default `default_lyric="auto"` of `get_lyric` is not a
  member of its own; a call without the option is `GetLyric(data, "auto")`.
- The HTTP clients of the providers, file and audio-tag I/O, and the command line are
  not part of this model.
- `LrcRoundTrip.WordAdjacency`: proved for the adjacency run only, with times below
  100 minutes (two-digit minutes, as the stamps the reader matches) and texts that are
  non-empty, free of `<` and without a trailing space. A full LRC round trip,
  `parse(generate(d))`, is not stated: agents, spaces and word runs are read back in
  the lemmas above, and nested background lines are not read back at all.
- `TimeCodec.RoundTripOneColon`: the round trip is proved below 60 hours, where the
  minutes group is below 3600. Above that, `formatLrcTime` wraps the minutes.
- `TimeCodec.RoundTripOneColon` and every round trip built on it hold of the
  exact-decimal reading only. That covers `TimeCodec.RoundTripTwoColons`,
  `LrcRoundTrip.LrcReadTime`, `LrcRoundTrip.WordAdjacency`, `SrtRoundTrip.SrtReadTime`,
  `SrtRoundTrip.RoundTrip`, `TtmlRoundTrip.StampReads`, the TTML round trips and
  `Converter.SrtToJson`. The program computes `int(float(time) * 1000)` (utils.py:34),
  so it reads some written times 1 ms low. For example, `formatLrcTime(1001)` is
  `00:01.001`, and `float("01.001") * 1000` is `1000.9999999999999` in binary
  floating point, so the program reads it back as 1000.
- `SrtRoundTrip.RoundTrip`: proved for times below 100 minutes and one-line non-empty
  texts.
  - Those are the times whose middle group has two digits, which the SRT timestamp
    pattern `\d{2}` demands.
  - Those are the texts the block pattern `(.+)` takes whole.
  - Agents and background flags are not written by SRT and do not come back.
- `TtmlRoundTrip.LineTimedRoundTrip` and `TtmlRoundTrip.WordTimedRoundTrip`: proved
  for these lines:
  - times below 60 hours;
  - agents that are absent or non-empty and numbered;
  - a background flag present.
  - Word-timed lines also need truthy times of their own, because the reader replaces
    a zero time by the words' times.
- `TtmlRoundTrip.WordTimedRoundTrip`: the round trip is proved on trees, not through
  the source's own writer. `etree.tostring(..., pretty_print=True)` indents a `<p>`
  whose spans all lack a tail, and the spans then read back as not `part`
  (`TtmlRoundTrip.PrettyUnglues`). A word-timed line whose words are all `part` does
  not survive writing and reading back with the source.
- `TtmlRoundTrip.LineTimedRoundTrip`: proved on trees. `TtmlRoundTrip.PrettyLineTimedRead`
  carries it through the indentation `pretty_print` adds.
- `Converter.TtmlToJson`: relies on an XML library that escapes every `&` and reads back
  the root's `timing` and the `<p>` elements it wrote, tails aside. It does not ask for
  the whole tree back, which the source's `pretty_print` writer would not give: that
  writer adds whitespace texts and tails, and `TtmlRoundTrip.PrettyLineTimedRead` shows
  that a line-timed document keeps what the premise asks for. The library itself is not
  part of this model.
- `TtmlGenerate.Pretty`: lxml's pretty printing is modelled as libxml2 indents, two
  spaces a level, with no indentation inside an element whose content holds text.
  Namespace declarations, the XML declaration and the encoding are not modelled.
