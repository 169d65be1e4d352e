/**
 * `convert` of lrxy/converter/main.py: the identity fast path, then the parser of the
 * input format, then the generator of the output format, with the SRT timing rules.
 * The XML and JSON libraries the dispatcher calls are not part of this model; they are
 * parameters, bundled in `Codecs`.
 */
module Converter {
  import opened Wrappers
  import opened Lyrics
  import TtmlTree
  import TtmlRepair
  import LrcParse
  import LrcGenerate
  import Srt
  import SrtRoundTrip
  import TtmlParse
  import TtmlGenerate
  import TtmlRoundTrip

  /** The library calls `convert` makes: `etree.fromstring` (as the TTML parser uses it),
      `etree.tostring` of the generated tree, `json.loads` and `json.dumps`. */
  datatype Codecs = Codecs(
    xmlRead: TtmlParse.XmlReader,
    xmlWrite: TtmlTree.Element -> string,
    jsonRead: string -> Result<Document, Error>,
    jsonWrite: Document -> string)

  /** `SUPPORTED_INPUTS`: the formats the first `match` has a parser for. */
  predicate Readable(format: string)
  {
    format == "lrc" || format == "ttml" || format == "srt" || format == "json"
  }

  /** The first `match`: the parsed document, or `UnsupportedFileFormatError`. */
  function Read(format: string, content: string, io: Codecs): (r: Result<Document, Error>)
    ensures !Readable(format) ==> r == Failure(UnsupportedFileFormat)
  {
    match format
    case "lrc" => LrcParse.Parsed(content)
    case "ttml" => TtmlParse.Parsed(content, io.xmlRead)
    case "srt" => Srt.Parsed(content)
    case "json" => io.jsonRead(content)
    case _ => Failure(UnsupportedFileFormat)
  }

  /** The second `match`: the generated text. SRT output of an untimed document ends the
      program (`sys.exit(1)`), here the `TimingRequired` error; a word-timed one is only
      logged as downgraded. Any other target is JSON. */
  function Write(format: string, data: Document, io: Codecs): Result<string, Error>
  {
    match format
    case "lrc" => LrcGenerate.Generated(data)
    case "ttml" =>
      var tree :- TtmlGenerate.Generated(data);
      Success(io.xmlWrite(tree))
    case "srt" => if data.timing == Untimed then Failure(TimingRequired) else Srt.Generated(data)
    case _ => Success(io.jsonWrite(data))
  }

  /** `convert(from_format, to_format, input_content)`. */
  function Convert(from: string, to: string, input: string, io: Codecs): (r: Result<string, Error>)
    ensures from == to ==> r == Success(input)
    ensures from != to && !Readable(from) ==> r == Failure(UnsupportedFileFormat)
    ensures from != to && Read(from, input, io).Failure? ==> r == Failure(Read(from, input, io).error)
  {
    if from == to then Success(input)
    else
      var data :- Read(from, input, io);
      Write(to, data, io)
  }

  // ---------------------------------------------------------------------------
  // Properties
  // ---------------------------------------------------------------------------

  /** The document is handed to the generator as the parser built it:
      the result is `generate(parse(content))`. */
  lemma Composes(from: string, to: string, input: string, io: Codecs, data: Document)
    requires from != to && Read(from, input, io) == Success(data)
    ensures Convert(from, to, input, io) == Write(to, data, io)
    ensures to == "lrc" ==> Convert(from, to, input, io) == LrcGenerate.Generated(data)
    ensures to == "srt" && data.timing != Untimed ==> Convert(from, to, input, io) == Srt.Generated(data)
    ensures to != "lrc" && to != "ttml" && to != "srt" ==> Convert(from, to, input, io) == Success(io.jsonWrite(data))
  {
  }

  /** SRT output of an untimed document fails and produces nothing; a word-timed one
      is still written. */
  lemma SrtTiming(from: string, input: string, io: Codecs, data: Document)
    requires from != "srt" && Read(from, input, io) == Success(data)
    ensures Convert(from, "srt", input, io) == Failure(TimingRequired) <==> data.timing == Untimed
    ensures data.timing == WordTimed ==> Convert(from, "srt", input, io) == Srt.Generated(data)
  {
    SrtNeverAsksTiming(data.timing, data.lyrics, 0, "");
  }

  /** The SRT generator itself never reports a missing timing. */
  lemma {:induction false} SrtNeverAsksTiming(timing: Timing, ls: seq<Line>, k: nat, out: string)
    requires k <= |ls|
    ensures Srt.BlocksOut(timing, ls, k, out) != Failure(TimingRequired)
    decreases |ls| - k
  {
    if k < |ls| {
      var next := Srt.BlockOut(timing, out, k, ls[k]);
      if next.Success? {
        SrtNeverAsksTiming(timing, ls, k + 1, next.value);
      }
    }
  }

  /** LRC-to-SRT conversion of an LRC text without any timestamp fails. */
  lemma UntimedLrcToSrt(input: string, io: Codecs)
    requires LrcParse.Parsed(input).Success? && LrcParse.Parsed(input).value.timing == Untimed
    ensures Convert("lrc", "srt", input, io) == Failure(TimingRequired)
  {
  }

  /** An SRT text written by the SRT generator converts to the JSON of the lines it was
      written from, stripped of agent and background. */
  lemma SrtToJson(ls: seq<Line>, io: Codecs)
    requires SrtRoundTrip.AllWritable(ls)
    ensures Srt.Generated(Document(LineTimed, ls)) == Success(SrtRoundTrip.JoinBlocks(SrtRoundTrip.Cores(ls)))
    ensures Convert("srt", "json", SrtRoundTrip.JoinBlocks(SrtRoundTrip.Cores(ls)), io) == Success(io.jsonWrite(Document(LineTimed, SrtRoundTrip.Plains(ls))))
  {
    SrtRoundTrip.RoundTrip(ls);
  }

  /** A TTML text written from a line-timed document whose lines the reader can
      reproduce converts to the JSON of that same document. The XML library need only
      escape every `&` in writing and give back, in reading, the root's `timing` and the
      `<p>` elements it wrote, whatever whitespace it adds around them. */
  lemma TtmlToJson(ls: seq<Line>, io: Codecs)
    requires forall j | 0 <= j < |ls| :: TtmlRoundTrip.Readable(ls[j]) && ls[j].content.Text?
    requires TtmlRoundTrip.NumberedAgents(ls)
    requires TtmlGenerate.Generated(Document(LineTimed, ls)).Success? ==>
      var tree := TtmlGenerate.Generated(Document(LineTimed, ls)).value;
      var back := io.xmlRead(io.xmlWrite(tree));
      && back.Success? && TtmlTree.Get(back.value, TtmlTree.TimingAttr) == TtmlTree.Get(tree, TtmlTree.TimingAttr)
      && TtmlParse.SameParagraphs(back.value, tree)
      && TtmlRepair.Escaped(io.xmlWrite(tree))
    ensures TtmlGenerate.Generated(Document(LineTimed, ls)).Success?
    ensures var text := io.xmlWrite(TtmlGenerate.Generated(Document(LineTimed, ls)).value);
      Convert("ttml", "json", text, io) == Success(io.jsonWrite(Document(LineTimed, ls)))
  {
    TtmlRoundTrip.LineTimedRoundTrip(ls);
    var tree := TtmlGenerate.Generated(Document(LineTimed, ls)).value;
    var text := io.xmlWrite(tree);
    TtmlRepair.RepairUnchanged(text);
    TtmlParse.ReadTreeTailsAside(io.xmlRead(text).value, tree);
  }
}
