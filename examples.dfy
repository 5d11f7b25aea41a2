/** The repository's test inputs that end with a newline (or do so once one is added),
    worked out through the document theorem: each is the Markdown text of a document,
    and its HTML is that document's rendering, trimmed. The heading ids come out in
    single quotes, as the scanner writes them. */
module MakotoExamples {
  import opened JsStrings
  import opened Makoto
  import opened MakotoBlocks
  import opened MakotoDocument
  import MakotoSafety

  /** Trimming drops the newline of the last line and nothing else. */
  lemma TrimLastNewline(s: string)
    requires s != [] && !IsJsWhitespace(s[0]) && !IsJsWhitespace(s[|s| - 1])
    ensures Trim(s + "\n") == s
  {
    TrimDropsTrailing(s, "\n");
  }

  /** Each character of a string without angle brackets is written as it is. */
  lemma {:induction false} SanitizeTagless(u: string)
    requires MakotoSafety.NoAngles(u)
    ensures SanitizeAll(u) == u
    decreases |u|
  {
    if u != [] {
      SanitizeTagless(u[..|u| - 1]);
    }
  }

  /** A document's HTML and text, one line in front of the rest. */
  lemma RenderCons(b: Block, rest: seq<Block>, id: nat)
    ensures Render([b] + rest, id) == RenderBlock(b, id) + Render(rest, id + Headings(b))
  {
    var d := [b] + rest;
    assert d != [] && d[0] == b && d[1..] == rest;
  }

  lemma NewlineInward(x: string, y: string)
    ensures x + (y + "\n") == (x + y) + "\n"
  {
  }

  lemma SourceCons(b: Block, rest: seq<Block>)
    ensures Source([b] + rest) == (LineSource(b) + "\n") + Source(rest)
  {
    var d := [b] + rest;
    assert d != [] && d[0] == b && d[1..] == rest;
  }

  lemma HeadingTags10()
    ensures HeadingOpenTag(1, 0) == "<h1 id='header-0'>" && HeadingCloseTag(1) == "</h1>"
  {
    assert NatToString(1) == "1" && NatToString(0) == "0";
  }

  lemma HeadingTags21()
    ensures HeadingOpenTag(2, 1) == "<h2 id='header-1'>" && HeadingCloseTag(2) == "</h2>"
  {
    assert NatToString(2) == "2" && NatToString(1) == "1";
  }

  lemma HeadingTags12()
    ensures HeadingOpenTag(1, 2) == "<h1 id='header-2'>" && HeadingCloseTag(1) == "</h1>"
  {
    assert NatToString(1) == "1" && NatToString(2) == "2";
  }

  lemma HeadingTags20()
    ensures HeadingOpenTag(2, 0) == "<h2 id='header-0'>" && HeadingCloseTag(2) == "</h2>"
  {
    assert NatToString(2) == "2" && NatToString(0) == "0";
  }

  lemma OneHash()
    ensures Repeat('#', 1) == "#"
  {
  }

  lemma TwoDashes()
    ensures Repeat('-', 2) == "--"
  {
  }

  lemma ThreeDashes()
    ensures Repeat('-', 3) == "---"
  {
  }

  lemma FourDashes()
    ensures Repeat('-', 4) == "----"
  {
  }

  lemma TwoHashes()
    ensures Repeat('#', 2) == "##"
  {
  }

  /** The HTML of lines holding a single plain text without angle brackets. */
  lemma TextHeadingLine(n: nat, id: nat, u: string)
    ensures RenderBlock(Heading(n, [Text(u)]), id) == HeadingOpenTag(n, id) + SanitizeAll(u) + HeadingCloseTag(n) + "\n"
  {
    assert RenderSpans([Text(u)]) == SanitizeAll(u);
  }

  lemma BoldHeadingLine(n: nat, id: nat, u: string)
    requires SanitizeAll(u) == u
    ensures RenderBlock(Heading(n, [Bold(u)]), id) == HeadingOpenTag(n, id) + ("<b>" + u + "</b>") + HeadingCloseTag(n) + "\n"
  {
    assert RenderSpans([Bold(u)]) == "<b>" + u + "</b>";
  }

  lemma TextParaLine(u: string, id: nat)
    requires SanitizeAll(u) == u
    ensures RenderBlock(Para([Text(u)]), id) == "<p>" + u + "</p>\n"
  {
    assert RenderSpans([Text(u)]) == u;
  }

  lemma TextHashesLine(n: nat, u: string, id: nat)
    requires SanitizeAll(u) == u && u != []
    ensures RenderBlock(Hashes(n, [Text(u)]), id) == "<p>" + Repeat('#', n) + u + "</p>\n"
  {
    assert RenderSpans([Text(u)]) == u;
  }

  lemma TextDashesLine(m: nat, u: string, id: nat)
    requires SanitizeAll(u) == u
    ensures RenderBlock(Dashes(m, [Text(u)]), id) == "<p>" + Repeat('-', m) + u + "</p>\n"
  {
    assert RenderSpans([Text(u)]) == u;
  }

  /** The Markdown of the same lines. */
  lemma TextHeadingSource(n: nat, u: string)
    ensures LineSource(Heading(n, [Text(u)])) + "\n" == Repeat('#', n) + " " + u + "\n"
  {
    assert SpansSource([Text(u)]) == u;
  }

  lemma TextDashesSource(m: nat, u: string)
    ensures LineSource(Dashes(m, [Text(u)])) + "\n" == Repeat('-', m) + u + "\n"
  {
    assert SpansSource([Text(u)]) == u;
  }

  lemma BoldHeadingSource(n: nat, u: string)
    ensures LineSource(Heading(n, [Bold(u)])) + "\n" == Repeat('#', n) + " " + ("**" + u + "**") + "\n"
  {
    assert SpansSource([Bold(u)]) == "**" + u + "**";
  }

  lemma TextParaSource(u: string)
    ensures LineSource(Para([Text(u)])) + "\n" == u + "\n"
  {
    assert SpansSource([Text(u)]) == u;
  }

  lemma TextHashesSource(n: nat, u: string)
    ensures LineSource(Hashes(n, [Text(u)])) + "\n" == Repeat('#', n) + u + "\n"
  {
    assert SpansSource([Text(u)]) == u;
  }

  lemma TetOffensiveKept()
    ensures SanitizeAll("tet offensive") == "tet offensive"
  {
    SanitizeTagless("tet offensive");
  }

  lemma TestingKept()
    ensures SanitizeAll("testing") == "testing"
  {
    SanitizeTagless("testing");
  }

  lemma HeadingHashKept()
    ensures SanitizeAll("Heading#") == "Heading#"
  {
    SanitizeTagless("Heading#");
  }

  lemma CheeSeeKept()
    ensures SanitizeAll("Chee see") == "Chee see"
  {
    SanitizeTagless("Chee see");
  }

  lemma LoremIpsumKept()
    ensures SanitizeAll("lorem ipsum") == "lorem ipsum"
  {
    SanitizeTagless("lorem ipsum");
  }

  lemma BricksKept()
    ensures SanitizeAll("in the sam#e way# bricks don't") == "in the sam#e way# bricks don't"
  {
    SanitizeTagless("in the sam#e way# bricks don't");
  }

  lemma YayKept()
    ensures SanitizeAll("Yay") == "Yay"
  {
    SanitizeTagless("Yay");
  }

  lemma AHashBKept()
    ensures SanitizeAll("a# b") == "a# b"
  {
    SanitizeTagless("a# b");
  }

  lemma ADashKept()
    ensures SanitizeAll("a-") == "a-"
  {
    SanitizeTagless("a-");
  }

  lemma CheeseKept()
    ensures SanitizeAll("cheese") == "cheese"
  {
    SanitizeTagless("cheese");
  }

  lemma TestAbcKept()
    ensures SanitizeAll("test abc") == "test abc"
  {
    SanitizeTagless("test abc");
  }

  lemma SpaceKept()
    ensures SanitizeAll(" ") == " "
  {
    SanitizeTagless(" ");
  }

  lemma AKept()
    ensures SanitizeAll("a") == "a"
  {
    SanitizeTagless("a");
  }

  lemma ChChKept()
    ensures SanitizeAll("ch*ch") == "ch*ch"
  {
    SanitizeTagless("ch*ch");
  }

  lemma RenderSpansCons(sp: Span, rest: seq<Span>)
    ensures RenderSpans([sp] + rest) == RenderSpan(sp) + RenderSpans(rest)
  {
    var d := [sp] + rest;
    assert d != [] && d[0] == sp && d[1..] == rest;
  }

  lemma SpansSourceCons(sp: Span, rest: seq<Span>)
    ensures SpansSource([sp] + rest) == SpanSource(sp) + SpansSource(rest)
  {
    var d := [sp] + rest;
    assert d != [] && d[0] == sp && d[1..] == rest;
  }

  /** The spans of `\\*\\*cheese\\*\\*`, written one after another. */
  lemma CheeseSpans()
    ensures RenderSpans([Escaped('*'), Escaped('*'), Text("cheese"), Escaped('*'), Escaped('*')])
         == "*" + ("*" + ("cheese" + ("*" + ("*" + ""))))
  {
    var s4 := [Escaped('*')];
    var s3 := [Escaped('*')] + s4;
    var s2 := [Text("cheese")] + s3;
    var s1 := [Escaped('*')] + s2;
    assert [Escaped('*'), Escaped('*'), Text("cheese"), Escaped('*'), Escaped('*')] == [Escaped('*')] + s1;
    assert s4 == [Escaped('*')] + [];
    assert Sanitize('*') == "*";
    CheeseKept();
    RenderSpansCons(Escaped('*'), []);
    RenderSpansCons(Escaped('*'), s4);
    RenderSpansCons(Text("cheese"), s3);
    RenderSpansCons(Escaped('*'), s2);
    RenderSpansCons(Escaped('*'), s1);
  }

  lemma CheeseSourceSpans()
    ensures SpansSource([Escaped('*'), Escaped('*'), Text("cheese"), Escaped('*'), Escaped('*')])
         == "\\*" + ("\\*" + ("cheese" + ("\\*" + ("\\*" + ""))))
  {
    var s4 := [Escaped('*')];
    var s3 := [Escaped('*')] + s4;
    var s2 := [Text("cheese")] + s3;
    var s1 := [Escaped('*')] + s2;
    assert [Escaped('*'), Escaped('*'), Text("cheese"), Escaped('*'), Escaped('*')] == [Escaped('*')] + s1;
    assert s4 == [Escaped('*')] + [];
    assert SpanSource(Escaped('*')) == "\\*";
    SpansSourceCons(Escaped('*'), []);
    SpansSourceCons(Escaped('*'), s4);
    SpansSourceCons(Text("cheese"), s3);
    SpansSourceCons(Escaped('*'), s2);
    SpansSourceCons(Escaped('*'), s1);
  }

  lemma EmphasisSpans()
    ensures RenderSpans([Bold("test abc"), Text(" "), Italic("a")])
         == "<b>" + "test abc" + "</b>" + (" " + ("<i>" + "a" + "</i>" + ""))
  {
    var s2 := [Italic("a")];
    var s1 := [Text(" ")] + s2;
    assert [Bold("test abc"), Text(" "), Italic("a")] == [Bold("test abc")] + s1;
    assert s2 == [Italic("a")] + [];
    TestAbcKept();
    SpaceKept();
    AKept();
    RenderSpansCons(Italic("a"), []);
    RenderSpansCons(Text(" "), s2);
    RenderSpansCons(Bold("test abc"), s1);
  }

  lemma EmphasisSourceSpans()
    ensures SpansSource([Bold("test abc"), Text(" "), Italic("a")])
         == "**" + "test abc" + "**" + (" " + ("*" + "a" + "*" + ""))
  {
    var s2 := [Italic("a")];
    var s1 := [Text(" ")] + s2;
    assert [Bold("test abc"), Text(" "), Italic("a")] == [Bold("test abc")] + s1;
    assert s2 == [Italic("a")] + [];
    SpansSourceCons(Italic("a"), []);
    SpansSourceCons(Text(" "), s2);
    SpansSourceCons(Bold("test abc"), s1);
  }

  lemma TestAbcBold()
    ensures BoldText("test abc")
  {
  }

  lemma ChChBold()
    ensures BoldText("ch*ch")
  {
    assert LoneStar("ch*ch", 2);
  }

  lemma TwoParagraphsTrim()
    ensures Trim("<p>a</p>\n<p>b</p>\n") == "<p>a</p>\n<p>b</p>"
  {
    TrimLastNewline("<p>a</p>\n<p>b</p>");
    assert "<p>a</p>\n<p>b</p>" + "\n" == "<p>a</p>\n<p>b</p>\n";
  }

  // "a\n\n\nb\n": blank lines make nothing.

  function NewLinesDoc(): seq<Block>
  {
    [Para([Text("a")]), Blank, Blank, Para([Text("b")])]
  }

  lemma NewLinesOk()
    ensures DocOk(NewLinesDoc())
  {
    assert BlockOk(Para([Text("a")])) && BlockOk(Para([Text("b")]));
  }

  lemma NewLinesSource()
    ensures Source(NewLinesDoc()) == "a\n\n\nb\n"
  {
  }

  lemma OneLetterLines()
    ensures RenderBlock(Para([Text("a")]), 0) == "<p>a</p>\n"
    ensures RenderBlock(Para([Text("b")]), 0) == "<p>b</p>\n"
  {
    assert RenderSpans([Text("a")]) == "a";
    assert RenderSpans([Text("b")]) == "b";
  }

  lemma TwoParagraphsText()
    ensures "<p>a</p>\n" + ("" + ("" + ("<p>b</p>\n" + ""))) == "<p>a</p>\n<p>b</p>\n"
  {
  }

  lemma NewLinesHtml()
    ensures Render(NewLinesDoc(), 0) == "<p>a</p>\n<p>b</p>\n"
  {
    OneLetterLines();
    var d3 := [Para([Text("b")])];
    var d2 := [Blank] + d3;
    var d1 := [Blank] + d2;
    assert NewLinesDoc() == [Para([Text("a")])] + d1;
    assert d3 == [Para([Text("b")])] + [];
    RenderCons(Para([Text("b")]), [], 0);
    RenderCons(Blank, d3, 0);
    RenderCons(Blank, d2, 0);
    RenderCons(Para([Text("a")]), d1, 0);
    TwoParagraphsText();
  }

  lemma NewLines()
    ensures Parse("a\n\n\nb\n") == "<p>a</p>\n<p>b</p>"
  {
    NewLinesOk();
    ParseRendersDocument(NewLinesDoc());
    NewLinesSource();
    NewLinesHtml();
    TwoParagraphsTrim();
  }

  // "a\n\n\nb\n\n": a blank last line makes nothing either.

  function TrailingBlankDoc(): seq<Block>
  {
    [Para([Text("a")]), Blank, Blank, Para([Text("b")]), Blank]
  }

  lemma TrailingBlankOk()
    ensures DocOk(TrailingBlankDoc())
  {
    assert BlockOk(Para([Text("a")])) && BlockOk(Para([Text("b")]));
  }

  lemma TrailingBlankSource()
    ensures Source(TrailingBlankDoc()) == "a\n\n\nb\n\n"
  {
  }

  lemma TrailingBlankText()
    ensures "<p>a</p>\n" + ("" + ("" + ("<p>b</p>\n" + ("" + "")))) == "<p>a</p>\n<p>b</p>\n"
  {
  }

  lemma TrailingBlankHtml()
    ensures Render(TrailingBlankDoc(), 0) == "<p>a</p>\n<p>b</p>\n"
  {
    OneLetterLines();
    var d4 := [Blank];
    var d3 := [Para([Text("b")])] + d4;
    var d2 := [Blank] + d3;
    var d1 := [Blank] + d2;
    assert TrailingBlankDoc() == [Para([Text("a")])] + d1;
    assert d4 == [Blank] + [];
    RenderCons(Blank, [], 0);
    RenderCons(Para([Text("b")]), d4, 0);
    RenderCons(Blank, d3, 0);
    RenderCons(Blank, d2, 0);
    RenderCons(Para([Text("a")]), d1, 0);
    TrailingBlankText();
  }

  lemma TrailingBlank()
    ensures Parse("a\n\n\nb\n\n") == "<p>a</p>\n<p>b</p>"
  {
    TrailingBlankOk();
    ParseRendersDocument(TrailingBlankDoc());
    TrailingBlankSource();
    TrailingBlankHtml();
    TwoParagraphsTrim();
  }

  // "# tet offensive\n": one heading, its id in single quotes.

  function OneHeadingDoc(): seq<Block>
  {
    [Heading(1, [Text("tet offensive")])]
  }

  lemma OneHeadingOk()
    ensures DocOk(OneHeadingDoc())
  {
    assert BlockOk(Heading(1, [Text("tet offensive")]));
  }

  lemma OneHeadingSource0Text()
    ensures "#" + " " + "tet offensive" + "\n" == "# tet offensive\n"
  {
  }

  lemma OneHeadingSource0()
    ensures LineSource(Heading(1, [Text("tet offensive")])) + "\n" == "# tet offensive\n"
  {
    TextHeadingSource(1, "tet offensive");
    OneHash();
    OneHeadingSource0Text();
  }

  lemma OneHeadingSource()
    ensures Source(OneHeadingDoc()) == "# tet offensive\n"
  {
    OneHeadingSource0();
    assert OneHeadingDoc() == [Heading(1, [Text("tet offensive")])] + [];
    SourceCons(Heading(1, [Text("tet offensive")]), []);
  }

  lemma OneHeadingLine0Text()
    ensures "<h1 id='header-0'>" + "tet offensive" + "</h1>" + "\n" == "<h1 id='header-0'>tet offensive</h1>" + "\n"
  {
  }

  lemma OneHeadingLine0()
    ensures RenderBlock(Heading(1, [Text("tet offensive")]), 0) == "<h1 id='header-0'>tet offensive</h1>" + "\n"
  {
    TetOffensiveKept();
    TextHeadingLine(1, 0, "tet offensive");
    HeadingTags10();
    OneHeadingLine0Text();
  }

  lemma OneHeadingHtml()
    ensures Render(OneHeadingDoc(), 0) == "<h1 id='header-0'>tet offensive</h1>" + "\n"
  {
    OneHeadingLine0();
    assert OneHeadingDoc() == [Heading(1, [Text("tet offensive")])] + [];
    RenderCons(Heading(1, [Text("tet offensive")]), [], 0);
  }

  lemma OneHeadingTrim()
    ensures Trim("<h1 id='header-0'>tet offensive</h1>" + "\n")
         == "<h1 id='header-0'>tet offensive</h1>"
  {
    TrimLastNewline("<h1 id='header-0'>tet offensive</h1>");
  }

  lemma OneHeading()
    ensures Parse("# tet offensive\n")
         == "<h1 id='header-0'>tet offensive</h1>"
  {
    OneHeadingOk();
    ParseRendersDocument(OneHeadingDoc());
    OneHeadingSource();
    OneHeadingHtml();
    OneHeadingTrim();
  }


  // "# testing\n## Heading#\n# Chee see\nlorem ipsum\n": headings are numbered in order.

  function NumberedHeadingsDoc(): seq<Block>
  {
    [Heading(1, [Text("testing")]), Heading(2, [Text("Heading#")]), Heading(1, [Text("Chee see")]), Para([Text("lorem ipsum")])]
  }

  lemma NumberedHeadingsOk()
    ensures DocOk(NumberedHeadingsDoc())
  {
    assert BlockOk(Heading(1, [Text("testing")]));
    assert BlockOk(Heading(2, [Text("Heading#")]));
    assert BlockOk(Heading(1, [Text("Chee see")]));
    assert BlockOk(Para([Text("lorem ipsum")]));
  }

  lemma NumberedHeadingsSource0Text()
    ensures "#" + " " + "testing" + "\n" == "# testing\n"
  {
  }

  lemma NumberedHeadingsSource0()
    ensures LineSource(Heading(1, [Text("testing")])) + "\n" == "# testing\n"
  {
    TextHeadingSource(1, "testing");
    OneHash();
    NumberedHeadingsSource0Text();
  }

  lemma NumberedHeadingsSource1Text()
    ensures "##" + " " + "Heading#" + "\n" == "## Heading#\n"
  {
  }

  lemma NumberedHeadingsSource1()
    ensures LineSource(Heading(2, [Text("Heading#")])) + "\n" == "## Heading#\n"
  {
    TextHeadingSource(2, "Heading#");
    TwoHashes();
    NumberedHeadingsSource1Text();
  }

  lemma NumberedHeadingsSource2Text()
    ensures "#" + " " + "Chee see" + "\n" == "# Chee see\n"
  {
  }

  lemma NumberedHeadingsSource2()
    ensures LineSource(Heading(1, [Text("Chee see")])) + "\n" == "# Chee see\n"
  {
    TextHeadingSource(1, "Chee see");
    OneHash();
    NumberedHeadingsSource2Text();
  }

  lemma NumberedHeadingsSource3Text()
    ensures "lorem ipsum" + "\n" == "lorem ipsum\n"
  {
  }

  lemma NumberedHeadingsSource3()
    ensures LineSource(Para([Text("lorem ipsum")])) + "\n" == "lorem ipsum\n"
  {
    TextParaSource("lorem ipsum");
    NumberedHeadingsSource3Text();
  }

  lemma NumberedHeadingsSource()
    ensures Source(NumberedHeadingsDoc()) == "# testing\n" + ("## Heading#\n" + ("# Chee see\n" + "lorem ipsum\n"))
  {
    NumberedHeadingsSource0();
    NumberedHeadingsSource1();
    NumberedHeadingsSource2();
    NumberedHeadingsSource3();
    var d3 := [Para([Text("lorem ipsum")])];
    var d2 := [Heading(1, [Text("Chee see")])] + d3;
    var d1 := [Heading(2, [Text("Heading#")])] + d2;
    assert NumberedHeadingsDoc() == [Heading(1, [Text("testing")])] + d1;
    assert d3 == [Para([Text("lorem ipsum")])] + [];
    SourceCons(Para([Text("lorem ipsum")]), []);
    SourceCons(Heading(1, [Text("Chee see")]), d3);
    SourceCons(Heading(2, [Text("Heading#")]), d2);
    SourceCons(Heading(1, [Text("testing")]), d1);
  }

  lemma NumberedHeadingsLine0Text()
    ensures "<h1 id='header-0'>" + "testing" + "</h1>" + "\n" == "<h1 id='header-0'>testing</h1>\n"
  {
  }

  lemma NumberedHeadingsLine0()
    ensures RenderBlock(Heading(1, [Text("testing")]), 0) == "<h1 id='header-0'>testing</h1>\n"
  {
    TestingKept();
    TextHeadingLine(1, 0, "testing");
    HeadingTags10();
    NumberedHeadingsLine0Text();
  }

  lemma NumberedHeadingsLine1Text()
    ensures "<h2 id='header-1'>" + "Heading#" + "</h2>" + "\n" == "<h2 id='header-1'>Heading#</h2>\n"
  {
  }

  lemma NumberedHeadingsLine1()
    ensures RenderBlock(Heading(2, [Text("Heading#")]), 1) == "<h2 id='header-1'>Heading#</h2>\n"
  {
    HeadingHashKept();
    TextHeadingLine(2, 1, "Heading#");
    HeadingTags21();
    NumberedHeadingsLine1Text();
  }

  lemma NumberedHeadingsLine2Text()
    ensures "<h1 id='header-2'>" + "Chee see" + "</h1>" + "\n" == "<h1 id='header-2'>Chee see</h1>\n"
  {
  }

  lemma NumberedHeadingsLine2()
    ensures RenderBlock(Heading(1, [Text("Chee see")]), 2) == "<h1 id='header-2'>Chee see</h1>\n"
  {
    CheeSeeKept();
    TextHeadingLine(1, 2, "Chee see");
    HeadingTags12();
    NumberedHeadingsLine2Text();
  }

  lemma NumberedHeadingsLine3Text()
    ensures "<p>" + "lorem ipsum" + "</p>\n" == "<p>lorem ipsum</p>" + "\n"
  {
  }

  lemma NumberedHeadingsLine3()
    ensures RenderBlock(Para([Text("lorem ipsum")]), 3) == "<p>lorem ipsum</p>" + "\n"
  {
    LoremIpsumKept();
    TextParaLine("lorem ipsum", 3);
    NumberedHeadingsLine3Text();
  }

  lemma NumberedHeadingsHtml()
    ensures Render(NumberedHeadingsDoc(), 0) == "<h1 id='header-0'>testing</h1>\n" + ("<h2 id='header-1'>Heading#</h2>\n" + ("<h1 id='header-2'>Chee see</h1>\n" + ("<p>lorem ipsum</p>" + "\n")))
  {
    NumberedHeadingsLine0();
    NumberedHeadingsLine1();
    NumberedHeadingsLine2();
    NumberedHeadingsLine3();
    var d3 := [Para([Text("lorem ipsum")])];
    var d2 := [Heading(1, [Text("Chee see")])] + d3;
    var d1 := [Heading(2, [Text("Heading#")])] + d2;
    assert NumberedHeadingsDoc() == [Heading(1, [Text("testing")])] + d1;
    assert d3 == [Para([Text("lorem ipsum")])] + [];
    RenderCons(Para([Text("lorem ipsum")]), [], 3);
    RenderCons(Heading(1, [Text("Chee see")]), d3, 2);
    RenderCons(Heading(2, [Text("Heading#")]), d2, 1);
    RenderCons(Heading(1, [Text("testing")]), d1, 0);
  }

  lemma NumberedHeadingsTrim()
    ensures Trim("<h1 id='header-0'>testing</h1>\n" + ("<h2 id='header-1'>Heading#</h2>\n" + ("<h1 id='header-2'>Chee see</h1>\n" + ("<p>lorem ipsum</p>" + "\n"))))
         == "<h1 id='header-0'>testing</h1>\n" + ("<h2 id='header-1'>Heading#</h2>\n" + ("<h1 id='header-2'>Chee see</h1>\n" + "<p>lorem ipsum</p>"))
  {
    NewlineInward("<h1 id='header-2'>Chee see</h1>\n", "<p>lorem ipsum</p>");
    NewlineInward("<h2 id='header-1'>Heading#</h2>\n", "<h1 id='header-2'>Chee see</h1>\n" + "<p>lorem ipsum</p>");
    NewlineInward("<h1 id='header-0'>testing</h1>\n", "<h2 id='header-1'>Heading#</h2>\n" + ("<h1 id='header-2'>Chee see</h1>\n" + "<p>lorem ipsum</p>"));
    TrimLastNewline("<h1 id='header-0'>testing</h1>\n" + ("<h2 id='header-1'>Heading#</h2>\n" + ("<h1 id='header-2'>Chee see</h1>\n" + "<p>lorem ipsum</p>")));
  }

  lemma NumberedHeadings()
    ensures Parse("# testing\n" + ("## Heading#\n" + ("# Chee see\n" + "lorem ipsum\n")))
         == "<h1 id='header-0'>testing</h1>\n" + ("<h2 id='header-1'>Heading#</h2>\n" + ("<h1 id='header-2'>Chee see</h1>\n" + "<p>lorem ipsum</p>"))
  {
    NumberedHeadingsOk();
    ParseRendersDocument(NumberedHeadingsDoc());
    NumberedHeadingsSource();
    NumberedHeadingsHtml();
    NumberedHeadingsTrim();
  }


  // "in the sam#e way# bricks don't\n# Yay\n#a# b\n": `#`s inside a line, or not followed by a space, are text.

  function HashTextDoc(): seq<Block>
  {
    [Para([Text("in the sam#e way# bricks don't")]), Heading(1, [Text("Yay")]), Hashes(1, [Text("a# b")])]
  }

  lemma LongTextOk()
    ensures BlockOk(Para([Text("in the sam#e way# bricks don't")]))
  {
  }

  lemma HashTextOk()
    ensures DocOk(HashTextDoc())
  {
    LongTextOk();
    assert BlockOk(Heading(1, [Text("Yay")]));
    assert BlockOk(Hashes(1, [Text("a# b")]));
  }

  lemma HashTextSource0Text()
    ensures "in the sam#e way# bricks don't" + "\n" == "in the sam#e way# bricks don't\n"
  {
  }

  lemma HashTextSource0()
    ensures LineSource(Para([Text("in the sam#e way# bricks don't")])) + "\n" == "in the sam#e way# bricks don't\n"
  {
    TextParaSource("in the sam#e way# bricks don't");
    HashTextSource0Text();
  }

  lemma HashTextSource1Text()
    ensures "#" + " " + "Yay" + "\n" == "# Yay\n"
  {
  }

  lemma HashTextSource1()
    ensures LineSource(Heading(1, [Text("Yay")])) + "\n" == "# Yay\n"
  {
    TextHeadingSource(1, "Yay");
    OneHash();
    HashTextSource1Text();
  }

  lemma HashTextSource2Text()
    ensures "#" + "a# b" + "\n" == "#a# b\n"
  {
  }

  lemma HashTextSource2()
    ensures LineSource(Hashes(1, [Text("a# b")])) + "\n" == "#a# b\n"
  {
    TextHashesSource(1, "a# b");
    OneHash();
    HashTextSource2Text();
  }

  lemma HashTextSource()
    ensures Source(HashTextDoc()) == "in the sam#e way# bricks don't\n" + ("# Yay\n" + "#a# b\n")
  {
    HashTextSource0();
    HashTextSource1();
    HashTextSource2();
    var d2 := [Hashes(1, [Text("a# b")])];
    var d1 := [Heading(1, [Text("Yay")])] + d2;
    assert HashTextDoc() == [Para([Text("in the sam#e way# bricks don't")])] + d1;
    assert d2 == [Hashes(1, [Text("a# b")])] + [];
    SourceCons(Hashes(1, [Text("a# b")]), []);
    SourceCons(Heading(1, [Text("Yay")]), d2);
    SourceCons(Para([Text("in the sam#e way# bricks don't")]), d1);
  }

  lemma HashTextLine0Text()
    ensures "<p>" + "in the sam#e way# bricks don't" + "</p>\n" == "<p>in the sam#e way# bricks don't</p>\n"
  {
  }

  lemma HashTextLine0()
    ensures RenderBlock(Para([Text("in the sam#e way# bricks don't")]), 0) == "<p>in the sam#e way# bricks don't</p>\n"
  {
    BricksKept();
    TextParaLine("in the sam#e way# bricks don't", 0);
    HashTextLine0Text();
  }

  lemma HashTextLine1Text()
    ensures "<h1 id='header-0'>" + "Yay" + "</h1>" + "\n" == "<h1 id='header-0'>Yay</h1>\n"
  {
  }

  lemma HashTextLine1()
    ensures RenderBlock(Heading(1, [Text("Yay")]), 0) == "<h1 id='header-0'>Yay</h1>\n"
  {
    YayKept();
    TextHeadingLine(1, 0, "Yay");
    HeadingTags10();
    HashTextLine1Text();
  }

  lemma HashTextLine2Text()
    ensures "<p>" + "#" + "a# b" + "</p>\n" == "<p>#a# b</p>" + "\n"
  {
  }

  lemma HashTextLine2()
    ensures RenderBlock(Hashes(1, [Text("a# b")]), 1) == "<p>#a# b</p>" + "\n"
  {
    AHashBKept();
    TextHashesLine(1, "a# b", 1);
    OneHash();
    HashTextLine2Text();
  }

  lemma HashTextHtml()
    ensures Render(HashTextDoc(), 0) == "<p>in the sam#e way# bricks don't</p>\n" + ("<h1 id='header-0'>Yay</h1>\n" + ("<p>#a# b</p>" + "\n"))
  {
    HashTextLine0();
    HashTextLine1();
    HashTextLine2();
    var d2 := [Hashes(1, [Text("a# b")])];
    var d1 := [Heading(1, [Text("Yay")])] + d2;
    assert HashTextDoc() == [Para([Text("in the sam#e way# bricks don't")])] + d1;
    assert d2 == [Hashes(1, [Text("a# b")])] + [];
    RenderCons(Hashes(1, [Text("a# b")]), [], 1);
    RenderCons(Heading(1, [Text("Yay")]), d2, 0);
    RenderCons(Para([Text("in the sam#e way# bricks don't")]), d1, 0);
  }

  lemma HashTextTrim()
    ensures Trim("<p>in the sam#e way# bricks don't</p>\n" + ("<h1 id='header-0'>Yay</h1>\n" + ("<p>#a# b</p>" + "\n")))
         == "<p>in the sam#e way# bricks don't</p>\n" + ("<h1 id='header-0'>Yay</h1>\n" + "<p>#a# b</p>")
  {
    NewlineInward("<h1 id='header-0'>Yay</h1>\n", "<p>#a# b</p>");
    NewlineInward("<p>in the sam#e way# bricks don't</p>\n", "<h1 id='header-0'>Yay</h1>\n" + "<p>#a# b</p>");
    TrimLastNewline("<p>in the sam#e way# bricks don't</p>\n" + ("<h1 id='header-0'>Yay</h1>\n" + "<p>#a# b</p>"));
  }

  lemma HashText()
    ensures Parse("in the sam#e way# bricks don't\n" + ("# Yay\n" + "#a# b\n"))
         == "<p>in the sam#e way# bricks don't</p>\n" + ("<h1 id='header-0'>Yay</h1>\n" + "<p>#a# b</p>")
  {
    HashTextOk();
    ParseRendersDocument(HashTextDoc());
    HashTextSource();
    HashTextHtml();
    HashTextTrim();
  }


  // "\\*\\*cheese\\*\\*\n": an escaped `*` is written as it is.

  function EscapesDoc(): seq<Block>
  {
    [Para([Escaped('*'), Escaped('*'), Text("cheese"), Escaped('*'), Escaped('*')])]
  }

  lemma EscapesOk()
    ensures DocOk(EscapesDoc())
  {
    assert BlockOk(Para([Escaped('*'), Escaped('*'), Text("cheese"), Escaped('*'), Escaped('*')]));
  }

  lemma EscapesSource0Text()
    ensures "\\*" + ("\\*" + ("cheese" + ("\\*" + ("\\*" + "")))) + "\n" == "\\*\\*cheese\\*\\*\n"
  {
  }

  lemma EscapesSource0()
    ensures LineSource(Para([Escaped('*'), Escaped('*'), Text("cheese"), Escaped('*'), Escaped('*')])) + "\n" == "\\*\\*cheese\\*\\*\n"
  {
    CheeseSourceSpans();
    EscapesSource0Text();
  }

  lemma EscapesSource()
    ensures Source(EscapesDoc()) == "\\*\\*cheese\\*\\*\n"
  {
    EscapesSource0();
    assert EscapesDoc() == [Para([Escaped('*'), Escaped('*'), Text("cheese"), Escaped('*'), Escaped('*')])] + [];
    SourceCons(Para([Escaped('*'), Escaped('*'), Text("cheese"), Escaped('*'), Escaped('*')]), []);
  }

  lemma EscapesLine0Text()
    ensures "<p>" + ("*" + ("*" + ("cheese" + ("*" + ("*" + ""))))) + "</p>\n" == "<p>**cheese**</p>" + "\n"
  {
  }

  lemma EscapesLine0()
    ensures RenderBlock(Para([Escaped('*'), Escaped('*'), Text("cheese"), Escaped('*'), Escaped('*')]), 0) == "<p>**cheese**</p>" + "\n"
  {
    CheeseSpans();
    EscapesLine0Text();
  }

  lemma EscapesHtml()
    ensures Render(EscapesDoc(), 0) == "<p>**cheese**</p>" + "\n"
  {
    EscapesLine0();
    assert EscapesDoc() == [Para([Escaped('*'), Escaped('*'), Text("cheese"), Escaped('*'), Escaped('*')])] + [];
    RenderCons(Para([Escaped('*'), Escaped('*'), Text("cheese"), Escaped('*'), Escaped('*')]), [], 0);
  }

  lemma EscapesTrim()
    ensures Trim("<p>**cheese**</p>" + "\n")
         == "<p>**cheese**</p>"
  {
    TrimLastNewline("<p>**cheese**</p>");
  }

  lemma Escapes()
    ensures Parse("\\*\\*cheese\\*\\*\n")
         == "<p>**cheese**</p>"
  {
    EscapesOk();
    ParseRendersDocument(EscapesDoc());
    EscapesSource();
    EscapesHtml();
    EscapesTrim();
  }


  // "---\n--\n----\n--a-\n---\n": three dashes or more make a rule, fewer make text.

  function RulesDoc(): seq<Block>
  {
    [Rule(3), Dashes(2, []), Rule(4), Dashes(2, [Text("a-")]), Rule(3)]
  }

  lemma RulesOk()
    ensures DocOk(RulesDoc())
  {
    assert BlockOk(Dashes(2, []));
    assert BlockOk(Dashes(2, [Text("a-")]));
  }

  lemma RulesSource0Text()
    ensures "---" + "\n" == "---\n"
  {
  }

  lemma RulesSource0()
    ensures LineSource(Rule(3)) + "\n" == "---\n"
  {
    ThreeDashes();
    RulesSource0Text();
  }

  lemma RulesSource1Text()
    ensures "--" + "" + "\n" == "--\n"
  {
  }

  lemma RulesSource1()
    ensures LineSource(Dashes(2, [])) + "\n" == "--\n"
  {
    TwoDashes();
    assert SpansSource([]) == "";
    RulesSource1Text();
  }

  lemma RulesSource2Text()
    ensures "----" + "\n" == "----\n"
  {
  }

  lemma RulesSource2()
    ensures LineSource(Rule(4)) + "\n" == "----\n"
  {
    FourDashes();
    RulesSource2Text();
  }

  lemma RulesSource3Text()
    ensures "--" + "a-" + "\n" == "--a-\n"
  {
  }

  lemma RulesSource3()
    ensures LineSource(Dashes(2, [Text("a-")])) + "\n" == "--a-\n"
  {
    TextDashesSource(2, "a-");
    TwoDashes();
    RulesSource3Text();
  }

  lemma RulesSource4Text()
    ensures "---" + "\n" == "---\n"
  {
  }

  lemma RulesSource4()
    ensures LineSource(Rule(3)) + "\n" == "---\n"
  {
    ThreeDashes();
    RulesSource4Text();
  }

  lemma RulesSource()
    ensures Source(RulesDoc()) == "---\n" + ("--\n" + ("----\n" + ("--a-\n" + "---\n")))
  {
    RulesSource0();
    RulesSource1();
    RulesSource2();
    RulesSource3();
    RulesSource4();
    var d4 := [Rule(3)];
    var d3 := [Dashes(2, [Text("a-")])] + d4;
    var d2 := [Rule(4)] + d3;
    var d1 := [Dashes(2, [])] + d2;
    assert RulesDoc() == [Rule(3)] + d1;
    assert d4 == [Rule(3)] + [];
    SourceCons(Rule(3), []);
    SourceCons(Dashes(2, [Text("a-")]), d4);
    SourceCons(Rule(4), d3);
    SourceCons(Dashes(2, []), d2);
    SourceCons(Rule(3), d1);
  }

  lemma RulesLine0()
    ensures RenderBlock(Rule(3), 0) == "<hr>\n"
  {
  }

  lemma RulesLine1Text()
    ensures "<p>" + "--" + "" + "</p>\n" == "<p>--</p>\n"
  {
  }

  lemma RulesLine1()
    ensures RenderBlock(Dashes(2, []), 0) == "<p>--</p>\n"
  {
    TwoDashes();
    assert RenderSpans([]) == "";
    RulesLine1Text();
  }

  lemma RulesLine2()
    ensures RenderBlock(Rule(4), 0) == "<hr>\n"
  {
  }

  lemma RulesLine3Text()
    ensures "<p>" + "--" + "a-" + "</p>\n" == "<p>--a-</p>\n"
  {
  }

  lemma RulesLine3()
    ensures RenderBlock(Dashes(2, [Text("a-")]), 0) == "<p>--a-</p>\n"
  {
    ADashKept();
    TextDashesLine(2, "a-", 0);
    TwoDashes();
    RulesLine3Text();
  }

  lemma RulesLine4()
    ensures RenderBlock(Rule(3), 0) == "<hr>" + "\n"
  {
  }

  lemma RulesHtml()
    ensures Render(RulesDoc(), 0) == "<hr>\n" + ("<p>--</p>\n" + ("<hr>\n" + ("<p>--a-</p>\n" + ("<hr>" + "\n"))))
  {
    RulesLine0();
    RulesLine1();
    RulesLine2();
    RulesLine3();
    RulesLine4();
    var d4 := [Rule(3)];
    var d3 := [Dashes(2, [Text("a-")])] + d4;
    var d2 := [Rule(4)] + d3;
    var d1 := [Dashes(2, [])] + d2;
    assert RulesDoc() == [Rule(3)] + d1;
    assert d4 == [Rule(3)] + [];
    RenderCons(Rule(3), [], 0);
    RenderCons(Dashes(2, [Text("a-")]), d4, 0);
    RenderCons(Rule(4), d3, 0);
    RenderCons(Dashes(2, []), d2, 0);
    RenderCons(Rule(3), d1, 0);
  }

  lemma RulesTrim()
    ensures Trim("<hr>\n" + ("<p>--</p>\n" + ("<hr>\n" + ("<p>--a-</p>\n" + ("<hr>" + "\n")))))
         == "<hr>\n" + ("<p>--</p>\n" + ("<hr>\n" + ("<p>--a-</p>\n" + "<hr>")))
  {
    NewlineInward("<p>--a-</p>\n", "<hr>");
    NewlineInward("<hr>\n", "<p>--a-</p>\n" + "<hr>");
    NewlineInward("<p>--</p>\n", "<hr>\n" + ("<p>--a-</p>\n" + "<hr>"));
    NewlineInward("<hr>\n", "<p>--</p>\n" + ("<hr>\n" + ("<p>--a-</p>\n" + "<hr>")));
    TrimLastNewline("<hr>\n" + ("<p>--</p>\n" + ("<hr>\n" + ("<p>--a-</p>\n" + "<hr>"))));
  }

  lemma Rules()
    ensures Parse("---\n" + ("--\n" + ("----\n" + ("--a-\n" + "---\n"))))
         == "<hr>\n" + ("<p>--</p>\n" + ("<hr>\n" + ("<p>--a-</p>\n" + "<hr>")))
  {
    RulesOk();
    ParseRendersDocument(RulesDoc());
    RulesSource();
    RulesHtml();
    RulesTrim();
  }


  // "**test abc** *a*\n## **ch*ch**\n": bold and italic spans; a lone `*` inside bold is text.

  function EmphasisDoc(): seq<Block>
  {
    [Para([Bold("test abc"), Text(" "), Italic("a")]), Heading(2, [Bold("ch*ch")])]
  }

  lemma EmphasisOk()
    ensures DocOk(EmphasisDoc())
  {
    TestAbcBold();
    ChChBold();
    assert BlockOk(Para([Bold("test abc"), Text(" "), Italic("a")]));
    assert BlockOk(Heading(2, [Bold("ch*ch")]));
  }

  lemma EmphasisSource0Text()
    ensures "**" + "test abc" + "**" + (" " + ("*" + "a" + "*" + "")) + "\n" == "**test abc** *a*\n"
  {
  }

  lemma EmphasisSource0()
    ensures LineSource(Para([Bold("test abc"), Text(" "), Italic("a")])) + "\n" == "**test abc** *a*\n"
  {
    EmphasisSourceSpans();
    EmphasisSource0Text();
  }

  lemma EmphasisSource1Text()
    ensures "##" + " " + ("**" + "ch*ch" + "**") + "\n" == "## **ch*ch**\n"
  {
  }

  lemma EmphasisSource1()
    ensures LineSource(Heading(2, [Bold("ch*ch")])) + "\n" == "## **ch*ch**\n"
  {
    BoldHeadingSource(2, "ch*ch");
    TwoHashes();
    EmphasisSource1Text();
  }

  lemma EmphasisSource()
    ensures Source(EmphasisDoc()) == "**test abc** *a*\n" + "## **ch*ch**\n"
  {
    EmphasisSource0();
    EmphasisSource1();
    var d1 := [Heading(2, [Bold("ch*ch")])];
    assert EmphasisDoc() == [Para([Bold("test abc"), Text(" "), Italic("a")])] + d1;
    assert d1 == [Heading(2, [Bold("ch*ch")])] + [];
    SourceCons(Heading(2, [Bold("ch*ch")]), []);
    SourceCons(Para([Bold("test abc"), Text(" "), Italic("a")]), d1);
  }

  lemma EmphasisLine0Text()
    ensures "<p>" + ("<b>" + "test abc" + "</b>" + (" " + ("<i>" + "a" + "</i>" + ""))) + "</p>\n" == "<p><b>test abc</b> <i>a</i></p>\n"
  {
  }

  lemma EmphasisLine0()
    ensures RenderBlock(Para([Bold("test abc"), Text(" "), Italic("a")]), 0) == "<p><b>test abc</b> <i>a</i></p>\n"
  {
    EmphasisSpans();
    EmphasisLine0Text();
  }

  lemma EmphasisLine1Text()
    ensures "<h2 id='header-0'>" + ("<b>" + "ch*ch" + "</b>") + "</h2>" + "\n" == "<h2 id='header-0'><b>ch*ch</b></h2>" + "\n"
  {
  }

  lemma EmphasisLine1()
    ensures RenderBlock(Heading(2, [Bold("ch*ch")]), 0) == "<h2 id='header-0'><b>ch*ch</b></h2>" + "\n"
  {
    ChChKept();
    BoldHeadingLine(2, 0, "ch*ch");
    HeadingTags20();
    EmphasisLine1Text();
  }

  lemma EmphasisHtml()
    ensures Render(EmphasisDoc(), 0) == "<p><b>test abc</b> <i>a</i></p>\n" + ("<h2 id='header-0'><b>ch*ch</b></h2>" + "\n")
  {
    EmphasisLine0();
    EmphasisLine1();
    var d1 := [Heading(2, [Bold("ch*ch")])];
    assert EmphasisDoc() == [Para([Bold("test abc"), Text(" "), Italic("a")])] + d1;
    assert d1 == [Heading(2, [Bold("ch*ch")])] + [];
    RenderCons(Heading(2, [Bold("ch*ch")]), [], 0);
    RenderCons(Para([Bold("test abc"), Text(" "), Italic("a")]), d1, 0);
  }

  lemma EmphasisTrim()
    ensures Trim("<p><b>test abc</b> <i>a</i></p>\n" + ("<h2 id='header-0'><b>ch*ch</b></h2>" + "\n"))
         == "<p><b>test abc</b> <i>a</i></p>\n" + "<h2 id='header-0'><b>ch*ch</b></h2>"
  {
    NewlineInward("<p><b>test abc</b> <i>a</i></p>\n", "<h2 id='header-0'><b>ch*ch</b></h2>");
    TrimLastNewline("<p><b>test abc</b> <i>a</i></p>\n" + "<h2 id='header-0'><b>ch*ch</b></h2>");
  }

  lemma Emphasis()
    ensures Parse("**test abc** *a*\n" + "## **ch*ch**\n")
         == "<p><b>test abc</b> <i>a</i></p>\n" + "<h2 id='header-0'><b>ch*ch</b></h2>"
  {
    EmphasisOk();
    ParseRendersDocument(EmphasisDoc());
    EmphasisSource();
    EmphasisHtml();
    EmphasisTrim();
  }


  // The empty input makes no HTML.

  lemma EmptyInput()
    ensures Parse("") == ""
  {
    ParseRendersDocument([]);
  }
}
