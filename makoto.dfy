/** The Markdown-to-HTML scanner of makoto.ts: one left-to-right pass over the
    characters that updates an output buffer, a buffer for the current line and
    a set of flags and counters.

    `Step` says what one pass of the loop body does to those variables, `Run`
    folds it over a range of positions, and `Parse` is the HTML the loop leaves
    behind. `ParseMdToHtml` is the loop itself, written with the source's
    variables, and is proved to compute `Parse`. */
module Makoto {
  import opened JsStrings
  import opened Endosulfan

  /** The scanner's boolean variables. */
  datatype Flags = Flags(
    isFirstLine: bool,
    backslashed: bool,          // the previous character was an escaping backslash
    inHeading: bool,
    inAsterisk: bool,
    horizontalRule: bool,
    wasImage: bool,
    inCode: bool)

  /** The scanner's variables between two characters; the booleans are kept together. */
  datatype Scan = Scan(
    html: string,               // finished output
    line: string,               // HTML built for the current line
    flags: Flags,
    headingLevel: nat,          // length of the `#` run read at the start of the line
    headerNum: nat,             // number of headings opened so far: the next id
    asteriskNum: nat,           // length of the opening `*` run
    asteriskOutNum: nat,        // length of the closing `*` run read so far
    horizontalNum: nat,         // length of the `-` run read at the start of the line
    imageAlt: Option<string>,   // alt text of an image under construction
    imageSrc: Option<string>)   // its source, once `](` has been read

  const Initial: Scan :=
    Scan("", "", Flags(true, false, false, false, false, false, false), 0, 0, 0, 0, 0, None, None)

  /** What the loop body does with a character it reads: `<` and `>` become entities. */
  function Sanitize(c: char): string
  {
    if c == '<' then "&lt;" else if c == '>' then "&gt;" else [c]
  }

  /** Whether a construct handler ended the iteration (`continue`) or passed the character on. */
  datatype Outcome = Consumed(s: Scan) | Passed(s: Scan)

  /** One iteration of the loop, for position `i`. */
  function Step(md: string, i: nat, s: Scan): Scan
    requires i < |md|
  {
    if s.flags.backslashed && i != |md| - 1 then
      // the escaped character is copied as it is
      s.(flags := s.flags.(backslashed := false), line := s.line + Sanitize(md[i]))
    else
      Unescaped(md, i, s.(flags := s.flags.(backslashed := false)))
  }

  /** The rest of the loop body, for a character that no backslash escapes
      (or that ends the input). */
  function Unescaped(md: string, i: nat, s: Scan): Scan
    requires i < |md|
  {
    var c := md[i];
    if c == '\\' && At(md, i + 1) != Some('\n') then
      s.(flags := s.flags.(backslashed := true),
         line := if i == 0 || At(md, i - 1) == Some('\n') then s.line + "<p>" else s.line)
    else if c == '\n' || i == |md| - 1 then
      EndOfLine(md, i, s)
    else
      match Code(md, i, s)
      case Consumed(s1) => s1
      case Passed(s1) => Constructs(md, i, s1)
  }

  /** Backticks, and the characters inside a code span. A backtick opens a span only when
      the lookahead finds its closing one; otherwise it goes on as an ordinary character. */
  function Code(md: string, i: nat, s: Scan): Outcome
    requires i < |md|
  {
    var c := md[i];
    if c == '`' && !s.flags.inCode then
      if CodeSpanCloses(md, i) then Consumed(s.(flags := s.flags.(inCode := true), line := s.line + "<code>"))
      else Passed(s)
    else if c == '`' then
      Consumed(s.(line := s.line + "</code>"))
    else if s.flags.inCode then
      Consumed(s.(line := s.line + Sanitize(c)))
    else
      Passed(s)
  }

  /** The handlers that follow code spans, in the source's order. */
  function Constructs(md: string, i: nat, s: Scan): Scan
    requires i < |md|
  {
    match HeadingRun(md, i, s)
    case Consumed(s1) => s1
    case Passed(s1) =>
      match RuleRun(md, i, s1)
      case Consumed(s2) => s2
      case Passed(s2) => Inline(md, i, s2)
  }

  /** Images, then emphasis and the character itself. */
  function Inline(md: string, i: nat, s: Scan): Scan
    requires i < |md|
  {
    match ImageSyntax(md, i, s)
    case Consumed(s3) => s3
    case Passed(s3) => Emphasis(md, i, s3)
  }

  /** A newline, or the last character of the input: flush the current line. */
  function EndOfLine(md: string, i: nat, s: Scan): Scan
    requires i < |md|
  {
    var s := s.(flags := s.flags.(isFirstLine := false));
    var s := if s.imageAlt.Some? then FlushImage(s) else s;
    var s := if i == |md| - 1 && md[i] != '\n' then LastCharacter(md, i, s) else s;
    CloseLine(md, i, AppendLine(s))
  }

  /** An image still open at the end of a line goes out as the literal text read so far. */
  function FlushImage(s: Scan): Scan
    requires s.imageAlt.Some?
  {
    var line := if StartsWith(s.line, "<p>") then s.line else "<p>" + s.line;
    var line := line + "![" + s.imageAlt.value;
    var line := if s.imageSrc.Some? then line + "](" + s.imageSrc.value else line;
    s.(line := line, imageAlt := None, imageSrc := None)
  }

  /** The line goes to the output; a paragraph is closed. */
  function AppendLine(s: Scan): Scan
  {
    if StartsWith(s.line, "<p>") then s.(html := s.html + s.line + "</p>\n", line := "", horizontalNum := 0)
    else s.(html := s.html + s.line, line := "", horizontalNum := 0)
  }

  /** After a rule or an image a newline follows unless one is already there; a heading is
      closed; at the end of the input the output is trimmed. */
  function CloseLine(md: string, i: nat, s: Scan): Scan
    requires i < |md|
  {
    var last := i == |md| - 1;
    if s.flags.horizontalRule || s.flags.wasImage then
      s.(html := if !last && At(s.html, |s.html| - 1) != Some('\n') then s.html + "\n"
                 else if last then Trim(s.html)
                 else s.html,
         flags := s.flags.(horizontalRule := false, wasImage := false))
    else if s.flags.inHeading then
      var h := s.html + HeadingCloseTag(s.headingLevel) + "\n";
      s.(html := if last then Trim(h) else h, headingLevel := 0, flags := s.flags.(inHeading := false))
    else
      s.(headingLevel := 0, html := if last then Trim(s.html) else s.html)
  }

  /** The last character of the input (when it is not a newline) may close a code span
      or an emphasis, and is dropped after a rule or an image. */
  function LastCharacter(md: string, i: nat, s: Scan): Scan
    requires i < |md|
  {
    var c := md[i];
    var closeCode := s.flags.inCode && c == '`';
    var line := if closeCode then s.line + "</code>" else s.line;
    // the previous character was a newline: nothing has added a `<p>` yet
    var line := if At(md, i - 1) == Some('\n') then "<p>" else line;
    var addChar := !closeCode && !s.flags.horizontalRule && !(s.flags.wasImage && c == ')');
    LastEmphasis(md, i, s.(line := line), addChar)
  }

  /** The rest of the last character's handling: a `*` may close the emphasis that is open,
      and otherwise the character is written when `addChar` allows it. */
  function LastEmphasis(md: string, i: nat, s: Scan, addChar: bool): Scan
    requires i < |md|
  {
    var c := md[i];
    var closeBold := s.flags.inAsterisk && c == '*' && s.asteriskNum == 2 && At(md, i - 1) == Some('*');
    var closeItalic := s.flags.inAsterisk && c == '*' && !closeBold && s.asteriskNum == 1;
    if closeBold || closeItalic then
      s.(line := s.line + (if closeBold then "</b>" else "</i>"),
         flags := s.flags.(inAsterisk := false), asteriskNum := 0)
    else
      s.(line := if addChar then s.line + Sanitize(c) else s.line)
  }

  /** The lookahead of a backtick at `i`: scanning forward, a backslash makes the next
      character skipped; a newline ends the search in failure, a backtick in success. */
  function CloseFrom(md: string, k: nat, skip: bool): bool
    decreases |md| - k
  {
    if k >= |md| then false
    else if skip then CloseFrom(md, k + 1, false)
    else if md[k] == '\\' then CloseFrom(md, k + 1, true)
    else if md[k] == '\n' then false
    else if md[k] == '`' then true
    else CloseFrom(md, k + 1, false)
  }

  predicate CodeSpanCloses(md: string, i: nat)
  {
    CloseFrom(md, i + 1, false)
  }

  /** A run of `n` copies of `mark` ends just before `i` and starts a line:
      either a newline precedes it, or it starts the input and the first line is still open. */
  predicate RunAnchored(md: string, i: nat, n: nat, mark: char, isFirstLine: bool)
  {
    Slice(md, i - n - 1, i) == "\n" + Repeat(mark, n)
    || (isFirstLine && Slice(md, 0, i) == Repeat(mark, n))
  }

  function HeadingOpenTag(level: nat, id: nat): string
  {
    "<h" + NatToString(level) + " id='header-" + NatToString(id) + "'>"
  }

  function HeadingCloseTag(level: nat): string
  {
    "</h" + NatToString(level) + ">"
  }

  /** `#` runs at the start of a line. */
  function HeadingRun(md: string, i: nat, s: Scan): Outcome
    requires i < |md|
  {
    if !RunAnchored(md, i, s.headingLevel, '#', s.flags.isFirstLine) then Passed(s)
    else HeadingMark(md[i], s)
  }

  /** A character read where the `#`s so far start the line. */
  function HeadingMark(c: char, s: Scan): Outcome
  {
    if c == '#' && !s.flags.inHeading && s.headingLevel <= 6 then
      Consumed(s.(headingLevel := s.headingLevel + 1))
    else if s.headingLevel > 0 && c == ' ' && !s.flags.inHeading then
      Consumed(s.(flags := s.flags.(inHeading := true),
                  line := s.line + HeadingOpenTag(s.headingLevel, s.headerNum),
                  headerNum := s.headerNum + 1))
    else if s.headingLevel > 0 then
      // the run was not a heading: its marks become text
      Passed(s.(line := s.line + "<p>" + Repeat('#', s.headingLevel), headingLevel := 0))
    else
      Passed(s)
  }

  /** `-` runs at the start of a line. */
  function RuleRun(md: string, i: nat, s: Scan): Outcome
    requires i < |md|
  {
    if !RunAnchored(md, i, s.horizontalNum, '-', s.flags.isFirstLine) then Passed(s)
    else RuleMark(md, i, s)
  }

  /** A character read where the `-`s so far start the line. */
  function RuleMark(md: string, i: nat, s: Scan): Outcome
    requires i < |md|
  {
    if md[i] == '-' then
      var n := s.horizontalNum + 1;
      if n == 3 || (n == 2 && At(md, |md| - 1) == Some('-') && i == |md| - 2) then
        Consumed(s.(horizontalNum := n, flags := s.flags.(horizontalRule := true), line := "<hr>"))
      else if n < 3 && (At(md, i + 1) == Some('\n') || i == |md| - 2) then
        Consumed(s.(horizontalNum := n, line := "<p>" + Repeat('-', n)))
      else
        Consumed(s.(horizontalNum := n))
    else if s.horizontalNum > 0 then
      Passed(s.(line := "<p>" + Repeat('-', s.horizontalNum)))
    else
      Passed(s)
  }

  function ImageTag(src: string, alt: string): string
  {
    "<img src=\"" + src + "\" alt=\"" + alt + "\">"
  }

  /** `![alt](src)`: first the four marks that open an image and its parts. */
  function ImageSyntax(md: string, i: nat, s: Scan): Outcome
    requires i < |md|
  {
    var c := md[i];
    if c == '!' && At(md, i + 1) == Some('[') then Consumed(s)
    else if c == ']' && At(md, i + 1) == Some('(') && s.imageAlt.Some? then Consumed(s)
    else if c == '[' && At(md, i - 1) == Some('!') && s.imageAlt.None? && s.imageSrc.None? then
      Consumed(s.(imageAlt := Some("")))
    else if c == '(' && At(md, i - 1) == Some(']') && s.imageAlt.Some? then
      Consumed(s.(imageSrc := Some("")))
    else
      ImageText(md, i, s)
  }

  /** The next character is a `)` that ends the input. */
  predicate LastIsParen(md: string, i: nat)
  {
    At(md, i + 1) == Some(')') && i + 1 == |md| - 1
  }

  /** Then the closing parenthesis, and the characters of the alt text and of the source. */
  function ImageText(md: string, i: nat, s: Scan): Outcome
    requires i < |md|
  {
    var c, t := md[i], Sanitize(md[i]);
    if (c == ')' || LastIsParen(md, i)) && s.imageSrc.Some? then
      // before a closing parenthesis that ends the input, the current character is part of src
      var src := if LastIsParen(md, i) then s.imageSrc.value + t else s.imageSrc.value;
      Consumed(s.(line := s.line + ImageTag(src, TemplateValue(s.imageAlt)),
                  flags := s.flags.(wasImage := true), imageAlt := None, imageSrc := None))
    else if s.imageAlt.Some? && s.imageSrc.None? && !(c == ']' && At(md, i + 1) == Some('(')) then
      Consumed(s.(imageAlt := Some(s.imageAlt.value + t)))
    else if s.imageSrc.Some? then
      Consumed(s.(imageSrc := Some(s.imageSrc.value + t)))
    else
      Passed(s.(flags := s.flags.(wasImage := false)))
  }

  /** Paragraph start, `*` and `**`, and finally the character itself. */
  function Emphasis(md: string, i: nat, s: Scan): Scan
    requires i < |md|
  {
    Asterisks(md, i, ParagraphStart(md, i, s))
  }

  /** A character at the start of a line that reaches this point opens a paragraph. */
  function ParagraphStart(md: string, i: nat, s: Scan): Scan
  {
    if i == 0 || At(md, i - 1) == Some('\n') then s.(line := s.line + "<p>") else s
  }

  /** An opening run of one `*` gives `<i>`, of two gives `<b>`; a closing run of the
      same length closes it. Any other character is appended. */
  function Asterisks(md: string, i: nat, s: Scan): Scan
    requires i < |md|
  {
    var c := md[i];
    if c == '*' && s.asteriskNum < 2 && !s.flags.inAsterisk then OpeningAsterisk(md, i, s)
    else if c == '*' && s.flags.inAsterisk then ClosingAsterisk(md, i, s)
    else if c != '*' && s.flags.inAsterisk then s.(asteriskOutNum := 0, line := s.line + Sanitize(c))
    else s.(line := s.line + Sanitize(c))
  }

  /** A `*` while no emphasis is open: one more opening mark. */
  function OpeningAsterisk(md: string, i: nat, s: Scan): Scan
  {
    var n := s.asteriskNum + 1;
    if n == 1 && At(md, i + 1) != Some('*') then
      s.(asteriskNum := n, line := s.line + "<i>", flags := s.flags.(inAsterisk := true))
    else if n == 2 then
      s.(asteriskNum := n, line := s.line + "<b>", flags := s.flags.(inAsterisk := true))
    else
      s.(asteriskNum := n)
  }

  /** A `*` inside an emphasis: one more closing mark. */
  function ClosingAsterisk(md: string, i: nat, s: Scan): Scan
    requires i < |md|
  {
    var out := s.asteriskOutNum + 1;
    if out == s.asteriskNum then
      var line := if s.asteriskNum == 1 then s.line + "</i>" else if s.asteriskNum == 2 then s.line + "</b>" else s.line;
      s.(line := line, flags := s.flags.(inAsterisk := false), asteriskNum := 0, asteriskOutNum := 0)
    else if out == 1 && At(md, i + 1) == Some('*') then
      s.(asteriskOutNum := out)
    else
      s.(asteriskOutNum := out, line := s.line + Sanitize(md[i]))
  }

  /** The loop run over positions `lo` to `hi - 1`, starting from `s`. */
  function Run(md: string, lo: nat, hi: nat, s: Scan): Scan
    requires lo <= hi <= |md|
    decreases hi
  {
    if hi == lo then s else Step(md, hi - 1, Run(md, lo, hi - 1, s))
  }

  /** The HTML `parse_md_to_html` returns. */
  function Parse(md: string): string
  {
    Run(md, 0, |md|, Initial).html
  }

  /** The inner loop of the scanner: does an unescaped backtick follow `i` before a newline? */
  method CodeSpanLookahead(md: string, i: nat) returns (endFound: bool)
    requires i < |md|
    ensures endFound == CodeSpanCloses(md, i)
  {
    var skipNext := false;
    endFound := false;
    var ii := 1;
    while ii < |md| - i
      invariant 1 <= ii <= |md| - i
      invariant CloseFrom(md, i + ii, skipNext) == CodeSpanCloses(md, i)
      invariant !endFound
    {
      if skipNext {
        skipNext := false;
        ii := ii + 1;
        continue;
      }
      if md[i + ii] == '\\' {
        skipNext := true;
      } else if md[i + ii] == '\n' {
        endFound := false;
        break;
      } else if md[i + ii] == '`' {
        endFound := true;
        break;
      }
      ii := ii + 1;
    }
  }

  /** The local variables of `parse_md_to_html`, gathered in one object so that each
      group of handlers of the loop body can be a method of its own. */
  class Scanner {
    const md: string
    var html: string
    var htmlLine: string
    var isFirstLine: bool
    var backslashed: bool
    var headingLevel: nat
    var inHeading: bool
    var headerNum: nat
    var asteriskNum: nat
    var asteriskOutNum: nat
    var inAsterisk: bool
    var horizontalNum: nat
    var horizontalRule: bool
    var wasImage: bool
    var imageAlt: Option<string>
    var imageSrc: Option<string>
    var inCode: bool

    function State(): Scan
      reads this
    {
      Scan(html, htmlLine,
           Flags(isFirstLine, backslashed, inHeading, inAsterisk, horizontalRule, wasImage, inCode),
           headingLevel, headerNum, asteriskNum, asteriskOutNum, horizontalNum, imageAlt, imageSrc)
    }

    constructor (md: string)
      ensures this.md == md && State() == Initial
    {
      this.md := md;
      html := "";
      htmlLine := "";
      isFirstLine := true;
      backslashed := false;
      headingLevel := 0;
      inHeading := false;
      headerNum := 0;
      asteriskNum := 0;
      asteriskOutNum := 0;
      inAsterisk := false;
      horizontalNum := 0;
      horizontalRule := false;
      wasImage := false;
      imageAlt := None;
      imageSrc := None;
      inCode := false;
    }

    /** The body of the loop for position `i`; `return` plays the part of `continue`. */
    method ScanCharacter(i: nat)
      requires i < |md|
      modifies this
      ensures State() == Step(md, i, old(State()))
    {
      var c := md[i];
      // sanitize input
      var text := [c];
      if c == '<' {
        text := "&lt;";
      } else if c == '>' {
        text := "&gt;";
      }
      // handle backslashes
      if backslashed {
        backslashed := false;
        if i != |md| - 1 {
          htmlLine := htmlLine + text;
          return;
        }
      }
      ScanUnescaped(i, text);
    }

    method ScanUnescaped(i: nat, text: string)
      requires i < |md| && text == Sanitize(md[i])
      modifies this
      ensures State() == Unescaped(md, i, old(State()))
    {
      var c := md[i];
      if c == '\\' && At(md, i + 1) != Some('\n') {
        backslashed := true;
        if i == 0 || At(md, i - 1) == Some('\n') {
          htmlLine := htmlLine + "<p>";
        }
        return;
      }
      // end of text or newline
      if c == '\n' || i == |md| - 1 {
        FlushLine(i);
        return;
      }
      var consumed := HandleCode(i, text);
      if consumed {
        return;
      }
      HandleConstructs(i, text);
    }

    /** Handle code. */
    method HandleCode(i: nat, text: string) returns (consumed: bool)
      requires i < |md| && text == Sanitize(md[i])
      modifies this
      ensures consumed == Code(md, i, old(State())).Consumed?
      ensures State() == Code(md, i, old(State())).s
    {
      var c := md[i];
      consumed := true;
      if c == '`' && !inCode {
        var endFound := CodeSpanLookahead(md, i);
        if endFound {
          inCode := true;
          htmlLine := htmlLine + "<code>";
        } else {
          consumed := false;
        }
      } else if c == '`' && inCode {
        htmlLine := htmlLine + "</code>";
      } else if inCode {
        htmlLine := htmlLine + text;
      } else {
        consumed := false;
      }
    }

    method HandleConstructs(i: nat, text: string)
      requires i < |md| && text == Sanitize(md[i])
      modifies this
      ensures State() == Constructs(md, i, old(State()))
    {
      var consumed := HandleHeading(i);
      if consumed {
        return;
      }
      consumed := HandleRule(i);
      if consumed {
        return;
      }
      consumed := HandleImage(i, text);
      if consumed {
        return;
      }
      HandleEmphasis(i, text);
    }

    method HandleEmphasis(i: nat, text: string)
      requires i < |md| && text == Sanitize(md[i])
      modifies this
      ensures State() == Emphasis(md, i, old(State()))
    {
      // add beginning paragraph
      if i == 0 || At(md, i - 1) == Some('\n') {
        htmlLine := htmlLine + "<p>";
      }
      HandleAsterisks(i, text);
    }

    /** End of text or newline. */
    method FlushLine(i: nat)
      requires i < |md|
      modifies this
      ensures State() == EndOfLine(md, i, old(State()))
    {
      var c := md[i];
      isFirstLine := false;
      // if image was never completed
      if imageAlt.Some? {
        FlushUnfinishedImage();
      }
      // if last character
      if i == |md| - 1 && c != '\n' {
        HandleLastCharacter(i);
      }
      AppendHtmlLine();
      CloseHtmlLine(i);
    }

    method FlushUnfinishedImage()
      requires imageAlt.Some?
      modifies this
      ensures State() == FlushImage(old(State()))
    {
      if !StartsWith(htmlLine, "<p>") {
        htmlLine := "<p>" + htmlLine;
      }
      htmlLine := htmlLine + "![" + imageAlt.value;
      if imageSrc.Some? {
        htmlLine := htmlLine + "](" + imageSrc.value;
      }
      imageAlt := None;
      imageSrc := None;
    }

    method AppendHtmlLine()
      modifies this
      ensures State() == AppendLine(old(State()))
    {
      html := html + htmlLine;
      if StartsWith(htmlLine, "<p>") {
        html := html + "</p>\n";
      }
      htmlLine := "";
      horizontalNum := 0;
    }

    method CloseHtmlLine(i: nat)
      requires i < |md|
      modifies this
      ensures State() == CloseLine(md, i, old(State()))
    {
      if horizontalRule || wasImage {
        if i != |md| - 1 && At(html, |html| - 1) != Some('\n') {
          // only add a newline if there isn't already one, and this isn't the last character
          html := html + "\n";
        } else if i == |md| - 1 {
          html := Trim(html);
        }
        horizontalRule := false;
        wasImage := false;
        return;
      }
      // ending a header, line break not needed
      if inHeading {
        html := html + HeadingCloseTag(headingLevel) + "\n";
        if i == |md| - 1 {
          html := Trim(html);
        }
        headingLevel := 0;
        inHeading := false;
        return;
      }
      headingLevel := 0;
      if i == |md| - 1 {
        html := Trim(html);
      }
    }

    method HandleLastCharacter(i: nat)
      requires i < |md|
      modifies this
      ensures State() == LastCharacter(md, i, old(State()))
    {
      var c := md[i];
      var addChar := true;
      if inCode && c == '`' {
        htmlLine := htmlLine + "</code>";
        addChar := false;
      }
      if horizontalRule {
        addChar := false;
      }
      if wasImage && c == ')' {
        addChar := false;
      }
      if At(md, i - 1) == Some('\n') {
        htmlLine := "<p>";
      }
      HandleLastEmphasis(i, addChar);
    }

    /** Ending a bold or an italic with the last character, or writing it. */
    method HandleLastEmphasis(i: nat, addChar: bool)
      requires i < |md|
      modifies this
      ensures State() == LastEmphasis(md, i, old(State()), addChar)
    {
      var c := md[i];
      var add := addChar;
      if inAsterisk && c == '*' {
        if asteriskNum == 2 && At(md, i - 1) == Some('*') {
          htmlLine := htmlLine + "</b>";
          inAsterisk := false;
          asteriskNum := 0;
          add := false;
        } else if asteriskNum == 1 {
          htmlLine := htmlLine + "</i>";
          inAsterisk := false;
          asteriskNum := 0;
          add := false;
        }
      }
      if add {
        htmlLine := htmlLine + Sanitize(c);
      }
    }

    method HandleHeading(i: nat) returns (consumed: bool)
      requires i < |md|
      modifies this
      ensures consumed == HeadingRun(md, i, old(State())).Consumed?
      ensures State() == HeadingRun(md, i, old(State())).s
    {
      consumed := false;
      if RunAnchored(md, i, headingLevel, '#', isFirstLine) {
        consumed := HandleHeadingMark(md[i]);
      }
    }

    method HandleHeadingMark(c: char) returns (consumed: bool)
      modifies this
      ensures consumed == HeadingMark(c, old(State())).Consumed?
      ensures State() == HeadingMark(c, old(State())).s
    {
      consumed := false;
      if c == '#' && !inHeading && headingLevel <= 6 {
        headingLevel := headingLevel + 1;
        consumed := true;
      } else if headingLevel > 0 && c == ' ' && !inHeading {
        inHeading := true;
        htmlLine := htmlLine + HeadingOpenTag(headingLevel, headerNum);
        headerNum := headerNum + 1;
        consumed := true;
      } else if headingLevel > 0 {
        htmlLine := htmlLine + "<p>" + Repeat('#', headingLevel);
        headingLevel := 0;
      }
    }

    method HandleRule(i: nat) returns (consumed: bool)
      requires i < |md|
      modifies this
      ensures consumed == RuleRun(md, i, old(State())).Consumed?
      ensures State() == RuleRun(md, i, old(State())).s
    {
      consumed := false;
      if RunAnchored(md, i, horizontalNum, '-', isFirstLine) {
        consumed := HandleRuleMark(i);
      }
    }

    method HandleRuleMark(i: nat) returns (consumed: bool)
      requires i < |md|
      modifies this
      ensures consumed == RuleMark(md, i, old(State())).Consumed?
      ensures State() == RuleMark(md, i, old(State())).s
    {
      consumed := false;
      if md[i] == '-' {
        horizontalNum := horizontalNum + 1;
        if horizontalNum == 3 || (horizontalNum == 2 && At(md, |md| - 1) == Some('-') && i == |md| - 2) {
          horizontalRule := true;
          htmlLine := "<hr>";
        } else if horizontalNum < 3 && (At(md, i + 1) == Some('\n') || i == |md| - 2) {
          // if next is end or newline, but less than 3 '-'s, it is not a rule
          htmlLine := "<p>" + Repeat('-', horizontalNum);
        }
        consumed := true;
      } else if horizontalNum > 0 {
        htmlLine := "<p>" + Repeat('-', horizontalNum);
      }
    }

    method HandleImage(i: nat, text: string) returns (consumed: bool)
      requires i < |md| && text == Sanitize(md[i])
      modifies this
      ensures consumed == ImageSyntax(md, i, old(State())).Consumed?
      ensures State() == ImageSyntax(md, i, old(State())).s
    {
      var c := md[i];
      consumed := true;
      if c == '!' && At(md, i + 1) == Some('[') {
      } else if c == ']' && At(md, i + 1) == Some('(') && imageAlt.Some? {
      } else if c == '[' && At(md, i - 1) == Some('!') && imageAlt.None? && imageSrc.None? {
        imageAlt := Some("");
      } else if c == '(' && At(md, i - 1) == Some(']') && imageAlt.Some? {
        imageSrc := Some("");
      } else {
        consumed := HandleImageText(i, text);
      }
    }

    method HandleImageText(i: nat, text: string) returns (consumed: bool)
      requires i < |md| && text == Sanitize(md[i])
      modifies this
      ensures consumed == ImageText(md, i, old(State())).Consumed?
      ensures State() == ImageText(md, i, old(State())).s
    {
      var c := md[i];
      consumed := true;
      if (c == ')' || LastIsParen(md, i)) && imageSrc.Some? {
        if LastIsParen(md, i) {
          imageSrc := Some(imageSrc.value + text);
        }
        htmlLine := htmlLine + ImageTag(imageSrc.value, TemplateValue(imageAlt));
        wasImage := true;
        imageAlt := None;
        imageSrc := None;
      } else if imageAlt.Some? && imageSrc.None? && !(c == ']' && At(md, i + 1) == Some('(')) {
        imageAlt := Some(imageAlt.value + text);
      } else if imageSrc.Some? {
        imageSrc := Some(imageSrc.value + text);
      } else {
        wasImage := false;
        consumed := false;
      }
    }

    /** Italics and bolds, and the character itself. */
    method HandleAsterisks(i: nat, text: string)
      requires i < |md| && text == Sanitize(md[i])
      modifies this
      ensures State() == Asterisks(md, i, old(State()))
    {
      var c := md[i];
      if c == '*' && asteriskNum < 2 && !inAsterisk {
        HandleOpeningAsterisk(i);
        return;
      } else if c == '*' && inAsterisk {
        HandleClosingAsterisk(i, text);
        return;
      } else if c != '*' && inAsterisk {
        asteriskOutNum := 0;
      }
      htmlLine := htmlLine + text;
    }

    method HandleOpeningAsterisk(i: nat)
      modifies this
      ensures State() == OpeningAsterisk(md, i, old(State()))
    {
      asteriskNum := asteriskNum + 1;
      if asteriskNum == 1 && At(md, i + 1) != Some('*') {
        htmlLine := htmlLine + "<i>";
        inAsterisk := true;
      } else if asteriskNum == 2 {
        htmlLine := htmlLine + "<b>";
        inAsterisk := true;
      }
    }

    /** A closing mark; unless it closes the emphasis or another follows, it is written. */
    method HandleClosingAsterisk(i: nat, text: string)
      requires i < |md| && text == Sanitize(md[i])
      modifies this
      ensures State() == ClosingAsterisk(md, i, old(State()))
    {
      asteriskOutNum := asteriskOutNum + 1;
      if asteriskOutNum == asteriskNum {
        if asteriskNum == 1 {
          htmlLine := htmlLine + "</i>";
        } else if asteriskNum == 2 {
          htmlLine := htmlLine + "</b>";
        }
        inAsterisk := false;
        asteriskNum := 0;
        asteriskOutNum := 0;
        return;
      } else if asteriskOutNum == 1 && At(md, i + 1) == Some('*') {
        return;
      }
      htmlLine := htmlLine + text;
    }
  }

  /** `parse_md_to_html`: one pass of the loop body per character. */
  method ParseMdToHtml(md: string) returns (html: string)
    ensures html == Parse(md)
  {
    var scanner := new Scanner(md);
    for i := 0 to |md|
      invariant scanner.md == md
      invariant scanner.State() == Run(md, 0, i, Initial)
    {
      scanner.ScanCharacter(i);
    }
    html := scanner.html;
  }

  /** `find_warnings`: this version collects no warnings at all. */
  function FindWarnings(md: string): (warnings: seq<Warning>)
    ensures warnings == []
  {
    []
  }
}
