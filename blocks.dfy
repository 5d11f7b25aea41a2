/** A reference rendering for the Markdown the scanner understands: documents
    made of lines (blank lines, paragraphs, headings, rules, lines that start
    with an image, and lines that start with marks which make no construct),
    the lines made of inline spans (plain text, italics, bolds, escapes and
    images). `Source` writes a document as Markdown, each line ended by a
    newline, and `Render` writes the HTML it stands for. */
module MakotoBlocks {
  import opened JsStrings
  import opened Makoto

  datatype Span =
    | Text(u: string)                 // plain characters
    | Italic(u: string)               // `*u*`
    | Bold(u: string)                 // `**u**`
    | Escaped(c: char)                // `\c`
    | Image(alt: string, src: string) // `![alt](src)`

  datatype Block =
    | Blank
    | Para(spans: seq<Span>)
    | Heading(level: nat, spans: seq<Span>)             // `#`s, a space, the title
    | Rule(dashes: nat)                                 // three dashes or more
    | Dashes(count: nat, spans: seq<Span>)              // one or two dashes, then text
    | Hashes(count: nat, spans: seq<Span>)              // `#`s not followed by a space
    | ImageLine(alt: string, src: string, rest: seq<Span>) // a line that starts with an image

  /** Characters of plain text: nothing that escapes, opens code or emphasis,
      opens an image's alt text, or ends the line. */
  predicate Plain(c: char)
  {
    c != '\\' && c != '`' && c != '*' && c != '[' && c != '\n'
  }

  predicate AllPlain(u: string)
  {
    forall k :: 0 <= k < |u| ==> Plain(u[k])
  }

  /** A `*` at `k` is not followed by another. */
  predicate LoneStar(u: string, k: nat)
    requires k + 1 < |u|
  {
    u[k] == '*' ==> u[k + 1] != '*'
  }

  /** The text of a bold span: plain characters and lone `*`s inside. */
  predicate BoldText(u: string)
  {
    u != [] && u[0] != '*' && u[|u| - 1] != '*'
    && (forall k :: 0 <= k < |u| ==> Plain(u[k]) || u[k] == '*')
    && (forall k {:trigger LoneStar(u, k)} :: 0 <= k < |u| - 1 ==> LoneStar(u, k))
  }

  predicate AltChar(c: char)
  {
    c != '\\' && c != '`' && c != '\n' && c != '[' && c != ']'
  }

  predicate SrcChar(c: char)
  {
    AltChar(c) && c != ')'
  }

  predicate SpanOk(sp: Span)
  {
    match sp
    case Text(u) => u != [] && AllPlain(u)
    case Italic(u) => u != [] && AllPlain(u)
    case Bold(u) => BoldText(u)
    case Escaped(c) => c != '\n'
    case Image(alt, src) =>
      (forall k :: 0 <= k < |alt| ==> AltChar(alt[k])) && (forall k :: 0 <= k < |src| ==> SrcChar(src[k]))
  }

  predicate SpansOk(sps: seq<Span>)
  {
    sps == [] || (SpanOk(sps[0]) && SpansOk(sps[1..]))
  }

  predicate NoImages(sps: seq<Span>)
  {
    sps == [] || (!sps[0].Image? && NoImages(sps[1..]))
  }

  function SpanSource(sp: Span): string
  {
    match sp
    case Text(u) => u
    case Italic(u) => "*" + u + "*"
    case Bold(u) => "**" + u + "**"
    case Escaped(c) => "\\" + [c]
    case Image(alt, src) => "![" + alt + "](" + src + ")"
  }

  function SpansSource(sps: seq<Span>): string
  {
    if sps == [] then "" else SpanSource(sps[0]) + SpansSource(sps[1..])
  }

  /** Each character as the scanner writes it. */
  function SanitizeAll(u: string): string
  {
    if u == [] then "" else SanitizeAll(u[..|u| - 1]) + Sanitize(u[|u| - 1])
  }

  function RenderSpan(sp: Span): string
  {
    match sp
    case Text(u) => SanitizeAll(u)
    case Italic(u) => "<i>" + SanitizeAll(u) + "</i>"
    case Bold(u) => "<b>" + SanitizeAll(u) + "</b>"
    case Escaped(c) => Sanitize(c)
    case Image(alt, src) => ImageTag(SanitizeAll(src), SanitizeAll(alt))
  }

  function RenderSpans(sps: seq<Span>): string
  {
    if sps == [] then "" else RenderSpan(sps[0]) + RenderSpans(sps[1..])
  }

  /** The scanner's "last thing was an image" flag after a span: escapes leave it alone. */
  function ImageAfter(sp: Span, before: bool): bool
  {
    match sp
    case Image(_, _) => true
    case Escaped(_) => before
    case _ => false
  }

  function EndsWithImage(sps: seq<Span>, before: bool): bool
  {
    if sps == [] then before else EndsWithImage(sps[1..], ImageAfter(sps[0], before))
  }

  /** A paragraph may not start with a `#`, a `-` or an image: those make other lines. */
  predicate StartsParagraph(sp: Span)
  {
    match sp
    case Text(u) => u != [] && u[0] != '#' && u[0] != '-'
    case Image(_, _) => false
    case _ => true
  }

  /** What may follow a run of `#`s that is no heading. */
  predicate FollowsHashes(sp: Span)
  {
    match sp
    case Text(u) => u != [] && u[0] != '#' && u[0] != ' '
    case Italic(_) => true
    case Bold(_) => true
    case _ => false
  }

  /** What may follow one or two `-`s. */
  predicate FollowsDashes(sp: Span)
  {
    match sp
    case Text(u) => u != [] && u[0] != '-'
    case Italic(_) => true
    case Bold(_) => true
    case _ => false
  }

  predicate BlockOk(b: Block)
  {
    match b
    case Blank => true
    case Para(sps) => sps != [] && SpansOk(sps) && StartsParagraph(sps[0])
    case Heading(n, sps) => 1 <= n <= 7 && SpansOk(sps) && NoImages(sps)
    case Rule(m) => m >= 3
    case Dashes(m, sps) => 1 <= m <= 2 && SpansOk(sps) && (sps != [] ==> FollowsDashes(sps[0]))
    case Hashes(n, sps) => 1 <= n <= 7 && SpansOk(sps) && (sps != [] ==> FollowsHashes(sps[0]))
    case ImageLine(alt, src, rest) => SpanOk(Image(alt, src)) && SpansOk(rest)
  }

  predicate DocOk(doc: seq<Block>)
  {
    forall k :: 0 <= k < |doc| ==> BlockOk(doc[k])
  }

  function LineSource(b: Block): string
  {
    match b
    case Blank => ""
    case Para(sps) => SpansSource(sps)
    case Heading(n, sps) => Repeat('#', n) + " " + SpansSource(sps)
    case Rule(m) => Repeat('-', m)
    case Dashes(m, sps) => Repeat('-', m) + SpansSource(sps)
    case Hashes(n, sps) => Repeat('#', n) + SpansSource(sps)
    case ImageLine(alt, src, rest) => SpanSource(Image(alt, src)) + SpansSource(rest)
  }

  /** The Markdown text of a document: each line followed by a newline. */
  function Source(doc: seq<Block>): string
  {
    if doc == [] then "" else LineSource(doc[0]) + "\n" + Source(doc[1..])
  }

  function Headings(b: Block): nat
  {
    if b.Heading? then 1 else 0
  }

  /** One line as HTML; `id` numbers the headings. A line that starts with an image
      gets no paragraph, and no line break unless it also ends with an image. */
  function RenderBlock(b: Block, id: nat): string
  {
    match b
    case Blank => ""
    case Para(sps) => "<p>" + RenderSpans(sps) + "</p>\n"
    case Heading(n, sps) => HeadingOpenTag(n, id) + RenderSpans(sps) + HeadingCloseTag(n) + "\n"
    case Rule(_) => "<hr>\n"
    case Dashes(m, sps) => "<p>" + Repeat('-', m) + RenderSpans(sps) + "</p>\n"
    case Hashes(n, sps) => if sps == [] then "" else "<p>" + Repeat('#', n) + RenderSpans(sps) + "</p>\n"
    case ImageLine(alt, src, rest) =>
      RenderSpan(Image(alt, src)) + RenderSpans(rest) + (if EndsWithImage(rest, true) then "\n" else "")
  }

  /** The document as HTML, line after line, headings numbered from `id` on. */
  function Render(doc: seq<Block>, id: nat): string
  {
    if doc == [] then "" else RenderBlock(doc[0], id) + Render(doc[1..], id + Headings(doc[0]))
  }
}
