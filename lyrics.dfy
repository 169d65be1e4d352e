/**
 * The shared lyric document every parser produces and every generator
 * consumes (the `Word`, `Line` and `Data` records of lrxy/converter/utils.py),
 * and the exceptions the converter raises, as error values.
 */
module Lyrics {
  import opened Wrappers

  /** The document-wide timing. `UnknownTiming` holds any other value the source can
      store there: `None` when an LRC text has no lyric line at all, or an unrecognised
      `timing` attribute of a TTML document. */
  datatype Timing = WordTimed | LineTimed | Untimed | UnknownTiming(tag: Option<string>)

  /** One timed word; `part` means it is glued to the next word without a space. */
  datatype Word = Word(begin: Option<nat>, end: Option<nat>, part: bool, text: string)

  /** A line holds either plain text or a list of timed words. */
  datatype Content = Text(text: string) | Words(words: seq<Word>)

  /** `background` is `None` on untimed lines, which the source builds with `None` there. */
  datatype Line = Line(
    begin: Option<nat>,
    end: Option<nat>,
    agent: Option<string>,
    background: Option<bool>,
    content: Content)

  datatype Document = Document(timing: Timing, lyrics: seq<Line>)

  /** The exceptions of the converter core. */
  datatype Error =
    | ParseLyric(format: string)     // ParseLyricError(format)
    | UnsupportedFileFormat          // UnsupportedFileFormatError
    | MalformedTime(text: string)    // a timestamp `float()` cannot read
    | MalformedAgent(agent: string)  // an agent whose number `int()` cannot read
    | MissingValue                   // a time that is absent or content of the wrong shape
    | EmptyWordList                  // the last word of an empty word list
    | TimingRequired                 // SRT output asked of an untimed document
    | MalformedMarkup                // the XML parser rejected the TTML text
    | MalformedJson                  // the JSON decoder rejected the text

  /** Python truthiness of an optional millisecond count: `None` and `0` are both false. */
  predicate Falsy(t: Option<nat>) { t.None? || t.value == 0 }

  predicate Truthy(t: Option<nat>) { !Falsy(t) }

  /** Python truthiness of an optional string. */
  predicate Present(s: Option<string>) { s.Some? && s.value != "" }

  /** Python truthiness of the `background` flag. */
  predicate IsBackground(b: Option<bool>) { b == Some(true) }

  /** Iterating over a line's content as words: a string yields characters, which
      have no word fields, so only the empty string iterates without error. */
  function WordsOf(c: Content): (r: Option<seq<Word>>)
    ensures c.Words? ==> r == Some(c.words)
    ensures c.Text? ==> (r.Some? <==> c.text == "")
    ensures r.Some? ==> (c.Text? ==> r.value == [])
  {
    match c
    case Words(ws) => Some(ws)
    case Text(s) => if s == "" then Some([]) else None
  }

  /** The timing a line's content shape calls for. */
  function ShapeTiming(c: Content): Timing
  {
    if c.Words? then WordTimed else LineTimed
  }

  /** When words are joined, a space follows a word unless it is `part` or equal (as a
      record, not by position) to the line's last word. */
  predicate Spaced(ws: seq<Word>, k: nat)
    requires k < |ws|
  {
    !ws[k].part && ws[k] != ws[|ws| - 1]
  }
}
