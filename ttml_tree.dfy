/**
 * The XML element tree the TTML codec of lrxy/converter/ttml.py reads and builds, in
 * place of lxml: a tag, attributes by their full (namespaced) name, the text before the
 * first child, the tail text after the element, and the children in document order.
 * lxml reports a missing text or tail as `None`; here it is the empty string. The
 * reader's test of a tail (`not tail`) treats both alike, but a text is copied into the
 * document, where the source's `None` and the empty string part ways.
 */
module TtmlTree {
  import opened Wrappers

  datatype Element = Element(
    tag: string,
    attrs: map<string, string>,
    text: string,
    tail: string,
    children: seq<Element>)

  /** `{http://music.apple.com/lyric-ttml-internal}timing` on the root. */
  const TimingAttr: string := "{http://music.apple.com/lyric-ttml-internal}timing"
  /** `{http://www.w3.org/ns/ttml#metadata}agent` on a `<p>`, the singer of the line. */
  const AgentAttr: string := "{http://www.w3.org/ns/ttml#metadata}agent"
  /** `{http://www.w3.org/ns/ttml#metadata}role`; `x-bg` marks background vocals. */
  const RoleAttr: string := "{http://www.w3.org/ns/ttml#metadata}role"
  /** `{http://www.w3.org/XML/1998/namespace}lang` on the root. */
  const LangAttr: string := "{http://www.w3.org/XML/1998/namespace}lang"
  /** `{http://www.w3.org/XML/1998/namespace}id` on an agent of the metadata. */
  const IdAttr: string := "{http://www.w3.org/XML/1998/namespace}id"
  const Background: string := "x-bg"

  /** `element.get(key)`. */
  function Get(e: Element, key: string): Option<string>
  {
    if key in e.attrs then Some(e.attrs[key]) else None
  }

  /** The element carries `role="x-bg"`. */
  predicate IsBg(e: Element)
  {
    Get(e, RoleAttr) == Some(Background)
  }

  /** `tree.xpath("//xmlns:p")`: every `<p>` at or below `e`, in document order. */
  function ParagraphsOf(e: Element): seq<Element>
    decreases e, 1
  {
    (if e.tag == "p" then [e] else []) + ParagraphsIn(e, 0)
  }

  /** The `<p>` elements below the children of `e` from `k` on. */
  function ParagraphsIn(e: Element, k: nat): seq<Element>
    requires k <= |e.children|
    decreases e, 0, |e.children| - k
  {
    if k == |e.children| then [] else ParagraphsOf(e.children[k]) + ParagraphsIn(e, k + 1)
  }
}
