/** Whole lines: whichever kind of line a block is, the scanner, started at the
    beginning of that line with nothing open, reaches the next line with the
    block's reference HTML added to its output and nothing left open. */
module MakotoLines {
  import opened JsStrings
  import opened Makoto
  import opened MakotoBlocks
  import opened MakotoSteps
  import opened MakotoTrace
  import opened MakotoSpans
  import opened MakotoRuns
  import opened MakotoHeads

  /** The state before the first character of a line: nothing open, no marks counted. */
  predicate LineStart(md: string, p: nat, s: Scan)
  {
    p <= |md| && (p == 0 || md[p - 1] == '\n') && s.flags.isFirstLine == (p == 0)
    && BetweenSpans(s) && s.line == "" && s.headingLevel == 0 && s.horizontalNum == 0
    && !s.flags.inHeading && !s.flags.horizontalRule && !s.flags.wasImage
  }

  /** The output once the newline at `e` is read: trimmed when it ends the input. */
  function Finish(md: string, e: nat, h: string): string
  {
    if e == |md| - 1 then Trim(h) else h
  }

  /** The line from `p` to the newline at `e` has added the HTML of `b` and counted its
      heading, and the scanner is at the start of the next line. */
  predicate LineDone(md: string, tr: seq<Scan>, p: nat, e: nat, b: Block)
  {
    p < |tr| && e + 1 < |tr|
    && tr[e + 1].html == Finish(md, e, tr[p].html + RenderBlock(b, tr[p].headerNum))
    && tr[e + 1].headerNum == tr[p].headerNum + Headings(b) && LineStart(md, e + 1, tr[e + 1])
  }

  /** Block `b` is written at `p`, and the newline that ends it is at `e`. */
  predicate BlockAt(md: string, p: nat, e: nat, b: Block)
  {
    Occurs(md, p, LineSource(b)) && e == p + |LineSource(b)| && e < |md| && md[e] == '\n' && BlockOk(b)
  }

  // What the newline does with what the line built.

  function Newlined(t: Scan): Scan
  {
    t.(flags := t.flags.(isFirstLine := false))
  }

  /** A paragraph gets its `</p>` and a newline; an image at its end adds nothing more. */
  lemma CloseParagraph(md: string, e: nat, t: Scan)
    requires e < |md| && StartsWith(t.line, "<p>") && !t.flags.horizontalRule && !t.flags.inHeading && t.headingLevel == 0
    ensures CloseLine(md, e, AppendLine(Newlined(t)))
         == t.(html := Finish(md, e, t.html + t.line + "</p>\n"), line := "", horizontalNum := 0,
               flags := t.flags.(isFirstLine := false, wasImage := false))
  {
    var h := t.html + t.line + "</p>\n";
    assert At(h, |h| - 1) == Some('\n');
  }

  /** A heading gets its closing tag and a newline. */
  lemma CloseHeading(md: string, e: nat, t: Scan)
    requires e < |md| && !StartsWith(t.line, "<p>") && !t.flags.horizontalRule && !t.flags.wasImage && t.flags.inHeading
    ensures CloseLine(md, e, AppendLine(Newlined(t)))
         == t.(html := Finish(md, e, t.html + t.line + HeadingCloseTag(t.headingLevel) + "\n"), line := "",
               headingLevel := 0, horizontalNum := 0, flags := t.flags.(isFirstLine := false, inHeading := false))
  {
  }

  /** A line that is no paragraph, heading, rule or image at its end: its HTML is kept as it is. */
  lemma ClosePlain(md: string, e: nat, t: Scan)
    requires e < |md| && !StartsWith(t.line, "<p>") && !t.flags.horizontalRule && !t.flags.wasImage && !t.flags.inHeading
    ensures CloseLine(md, e, AppendLine(Newlined(t)))
         == t.(html := Finish(md, e, t.html + t.line), line := "", headingLevel := 0, horizontalNum := 0,
               flags := t.flags.(isFirstLine := false))
  {
  }

  /** A rule, or a line that ends with an image: a newline follows. */
  lemma CloseMarked(md: string, e: nat, t: Scan)
    requires e < |md| && !StartsWith(t.line, "<p>") && (t.flags.horizontalRule || t.flags.wasImage)
    requires t.line != [] && t.line[|t.line| - 1] != '\n' && t.headingLevel == 0
    ensures CloseLine(md, e, AppendLine(Newlined(t)))
         == t.(html := Finish(md, e, t.html + t.line + "\n"), line := "", horizontalNum := 0,
               flags := t.flags.(isFirstLine := false, horizontalRule := false, wasImage := false))
  {
    var h := t.html + t.line;
    assert At(h, |h| - 1) == Some(t.line[|t.line| - 1]);
    if e == |md| - 1 {
      TrimNewline(h);
    }
  }

  // No newline inside a line.

  predicate NoNewline(t: string)
  {
    forall k :: 0 <= k < |t| ==> t[k] != '\n'
  }

  lemma NoNewlineJoin(x: string, y: string)
    requires NoNewline(x) && NoNewline(y)
    ensures NoNewline(x + y)
  {
  }

  lemma SpanNoNewline(sp: Span)
    requires SpanOk(sp)
    ensures NoNewline(SpanSource(sp))
  {
    match sp
    case Text(u) =>
    case Italic(u) =>
      NoNewlineJoin("*", u);
      NoNewlineJoin("*" + u, "*");
    case Bold(u) =>
      NoNewlineJoin("**", u);
      NoNewlineJoin("**" + u, "**");
    case Escaped(c) =>
    case Image(alt, src) =>
      NoNewlineJoin("![", alt);
      NoNewlineJoin("![" + alt, "](");
      NoNewlineJoin("![" + alt + "](", src);
      NoNewlineJoin("![" + alt + "](" + src, ")");
  }

  lemma {:induction false} SpansNoNewline(sps: seq<Span>)
    requires SpansOk(sps)
    ensures NoNewline(SpansSource(sps))
    decreases |sps|
  {
    if sps != [] {
      SpanNoNewline(sps[0]);
      SpansNoNewline(sps[1..]);
      NoNewlineJoin(SpanSource(sps[0]), SpansSource(sps[1..]));
    }
  }

  /** The Markdown of a well-formed block holds no newline. */
  lemma LineNoNewline(b: Block)
    requires BlockOk(b)
    ensures NoNewline(LineSource(b))
  {
    match b
    case Blank =>
    case Para(sps) =>
      SpansNoNewline(sps);
    case Heading(n, sps) =>
      SpansNoNewline(sps);
      NoNewlineJoin(Repeat('#', n), " ");
      NoNewlineJoin(Repeat('#', n) + " ", SpansSource(sps));
    case Rule(m) =>
    case Dashes(m, sps) =>
      SpansNoNewline(sps);
      NoNewlineJoin(Repeat('-', m), SpansSource(sps));
    case Hashes(n, sps) =>
      SpansNoNewline(sps);
      NoNewlineJoin(Repeat('#', n), SpansSource(sps));
    case ImageLine(alt, src, rest) =>
      SpanNoNewline(Image(alt, src));
      SpansNoNewline(rest);
      NoNewlineJoin(SpanSource(Image(alt, src)), SpansSource(rest));
  }

  /** A block's Markdown, ended by a newline, is one line of the input. */
  lemma BlockInLine(md: string, p: nat, e: nat, b: Block)
    requires BlockAt(md, p, e, b)
    ensures InLine(md, p, e)
  {
    var t := LineSource(b);
    LineNoNewline(b);
    OccursChars(md, p, t);
    forall k | p <= k < e
      ensures md[k] != '\n'
    {
      assert md[p + (k - p)] == t[k - p];
    }
  }

  // Runs of marks.

  /** `n` copies of `c` from `p` on. */
  predicate MarksAt(md: string, p: nat, n: nat, c: char)
  {
    p + n <= |md| && forall k :: p <= k < p + n ==> md[k] == c
  }

  lemma MarksOf(md: string, p: nat, n: nat, c: char)
    requires Occurs(md, p, Repeat(c, n))
    ensures MarksAt(md, p, n, c)
  {
    OccursChars(md, p, Repeat(c, n));
    forall k | p <= k < p + n
      ensures md[k] == c
    {
      assert md[p + (k - p)] == Repeat(c, n)[k - p];
    }
  }

  /** Up to seven `#`s at the start of a line are counted. */
  lemma {:induction false} HashRun(md: string, tr: seq<Scan>, p: nat, n: nat, s: Scan)
    requires IsTrace(md, tr) && LineStart(md, p, s) && tr[p] == s && MarksAt(md, p, n, '#') && n <= 7 && p + n < |md|
    ensures tr[p + n] == s.(headingLevel := n)
    decreases n
  {
    if n > 0 {
      HashRun(md, tr, p, n - 1, s);
      var j := p + n - 1;
      HashAt(md, tr, j, j + 1);
    }
  }

  /** `-`s at the start of a line are counted while the line goes on. */
  lemma {:induction false} DashRun(md: string, tr: seq<Scan>, p: nat, m: nat, s: Scan)
    requires IsTrace(md, tr) && LineStart(md, p, s) && tr[p] == s && MarksAt(md, p, m, '-') && m <= 2
    requires p + m + 1 < |md| && md[p + m] != '\n'
    ensures tr[p + m] == s.(horizontalNum := m)
    decreases m
  {
    if m > 0 {
      DashRun(md, tr, p, m - 1, s);
      var j := p + m - 1;
      DashAt(md, tr, j, j + 1);
    }
  }

  /** One or two `-`s that make the whole line. */
  lemma DashesAlone(md: string, tr: seq<Scan>, p: nat, m: nat, s: Scan)
    requires IsTrace(md, tr) && LineStart(md, p, s) && tr[p] == s && MarksAt(md, p, m, '-') && 1 <= m <= 2
    requires p + m < |md| && md[p + m] == '\n'
    ensures tr[p + m] == s.(horizontalNum := m, line := "<p>" + Repeat('-', m))
  {
    DashRun(md, tr, p, m - 1, s);
    var j := p + m - 1;
    DashShortAt(md, tr, j, j + 1);
  }

  /** The third `-` of a line makes a rule. */
  lemma RuleStarts(md: string, tr: seq<Scan>, p: nat, s: Scan)
    requires IsTrace(md, tr) && LineStart(md, p, s) && tr[p] == s && MarksAt(md, p, 3, '-') && p + 3 < |md|
    ensures tr[p + 3] == s.(horizontalNum := 3, flags := s.flags.(horizontalRule := true), line := "<hr>")
  {
    DashRun(md, tr, p, 2, s);
    DashThirdAt(md, tr, p + 2, p + 3);
  }

  /** A rule goes on for any number of `-`s. */
  lemma {:induction false} RuleRun(md: string, tr: seq<Scan>, p: nat, m: nat, s: Scan)
    requires IsTrace(md, tr) && LineStart(md, p, s) && tr[p] == s && MarksAt(md, p, m, '-') && 3 <= m && p + m < |md|
    ensures tr[p + m] == s.(horizontalNum := m, flags := s.flags.(horizontalRule := true), line := "<hr>")
    decreases m
  {
    if m == 3 {
      RuleStarts(md, tr, p, s);
    } else {
      RuleRun(md, tr, p, m - 1, s);
      RuleGoesOn(md, tr, p, p + m - 1, s);
    }
  }

  /** One more `-` of a rule, read at `j`. */
  lemma RuleGoesOn(md: string, tr: seq<Scan>, p: nat, j: nat, s: Scan)
    requires IsTrace(md, tr) && p + 3 <= j && j + 1 < |md| && LineStart(md, p, s) && MarksAt(md, p, j + 1 - p, '-')
    requires tr[j] == s.(horizontalNum := j - p, flags := s.flags.(horizontalRule := true), line := "<hr>")
    ensures tr[j + 1] == s.(horizontalNum := j + 1 - p, flags := s.flags.(horizontalRule := true), line := "<hr>")
  {
    DashBeyondAt(md, tr, j, j + 1);
    assert tr[j].(horizontalNum := tr[j].horizontalNum + 1)
        == s.(horizontalNum := j + 1 - p, flags := s.flags.(horizontalRule := true), line := "<hr>");
  }

  // Facts about what a line builds.

  lemma {:induction false} NoImagesEnd(sps: seq<Span>)
    requires NoImages(sps)
    ensures !EndsWithImage(sps, false)
    decreases |sps|
  {
    if sps != [] {
      NoImagesEnd(sps[1..]);
    }
  }

  lemma {:induction false} SanitizeNoNewline(u: string)
    requires NoNewline(u)
    ensures NoNewline(SanitizeAll(u))
    decreases |u|
  {
    if u != [] {
      var v := u[..|u| - 1];
      assert forall k :: 0 <= k < |v| ==> v[k] == u[k];
      SanitizeNoNewline(v);
      NoNewlineJoin(SanitizeAll(v), Sanitize(u[|u| - 1]));
    }
  }

  lemma RenderNoNewline(sp: Span)
    requires SpanOk(sp)
    ensures NoNewline(RenderSpan(sp))
  {
    match sp
    case Text(u) =>
      SanitizeNoNewline(u);
    case Italic(u) =>
      SanitizeNoNewline(u);
      NoNewlineJoin("<i>", SanitizeAll(u));
      NoNewlineJoin("<i>" + SanitizeAll(u), "</i>");
    case Bold(u) =>
      SanitizeNoNewline(u);
      NoNewlineJoin("<b>", SanitizeAll(u));
      NoNewlineJoin("<b>" + SanitizeAll(u), "</b>");
    case Escaped(c) =>
    case Image(alt, src) =>
      var a, r := SanitizeAll(alt), SanitizeAll(src);
      SanitizeNoNewline(alt);
      SanitizeNoNewline(src);
      NoNewlineJoin("<img src=\"", r);
      NoNewlineJoin("<img src=\"" + r, "\" alt=\"");
      NoNewlineJoin("<img src=\"" + r + "\" alt=\"", a);
      NoNewlineJoin("<img src=\"" + r + "\" alt=\"" + a, "\">");
  }

  lemma {:induction false} RenderSpansNoNewline(sps: seq<Span>)
    requires SpansOk(sps)
    ensures NoNewline(RenderSpans(sps))
    decreases |sps|
  {
    if sps != [] {
      RenderNoNewline(sps[0]);
      RenderSpansNoNewline(sps[1..]);
      NoNewlineJoin(RenderSpan(sps[0]), RenderSpans(sps[1..]));
    }
  }

  /** A line whose second character is not `p` is no paragraph. */
  lemma NoParagraph(x: string)
    requires |x| >= 2 && x[1] != 'p'
    ensures !StartsWith(x, "<p>")
  {
    if |x| >= 3 {
      assert x[..3][1] != "<p>"[1];
    }
  }

  lemma FollowsHashesHead(sp: Span)
    requires SpanOk(sp) && FollowsHashes(sp)
    ensures SpanSource(sp)[0] != '#' && SpanSource(sp)[0] != ' '
  {
    SourceHead(sp);
  }

  lemma FollowsDashesHead(sp: Span)
    requires SpanOk(sp) && FollowsDashes(sp)
    ensures SpanSource(sp)[0] != '-'
  {
    SourceHead(sp);
  }

  // Where a line's parts sit in the input.

  /** A first span `sp` sits at `a`, and the spans `rest` run from its end to `e`. */
  predicate Lead(md: string, a: nat, e: nat, sp: Span, rest: seq<Span>)
  {
    SpanOk(sp) && Width(sp) > 0 && Occurs(md, a, SpanSource(sp))
    && a + Width(sp) <= e < |md| && md[a + Width(sp)] != '[' && RunAt(md, e, a + Width(sp), rest)
  }

  lemma LeadOf(md: string, p: nat, a: nat, e: nat, sps: seq<Span>)
    requires InLine(md, p, e) && p <= a && Occurs(md, a, SpansSource(sps)) && e == a + |SpansSource(sps)|
    requires SpansOk(sps) && sps != []
    ensures Lead(md, a, e, sps[0], sps[1..]) && a < e && md[a] == SpanSource(sps[0])[0]
  {
    SourceCons(md, a, sps);
    SourceHead(sps[0]);
    RunAtOf(md, e, a + Width(sps[0]), sps[1..]);
    RunNext(md, p, e, a + Width(sps[0]), sps[1..]);
  }

  lemma ParaLayout(md: string, p: nat, e: nat, sps: seq<Span>)
    requires BlockAt(md, p, e, Para(sps))
    ensures sps != [] && InLine(md, p, e) && Lead(md, p, e, sps[0], sps[1..])
  {
    BlockInLine(md, p, e, Para(sps));
    LeadOf(md, p, p, e, sps);
  }

  lemma HeadingLayout(md: string, p: nat, e: nat, n: nat, sps: seq<Span>)
    requires BlockAt(md, p, e, Heading(n, sps))
    ensures InLine(md, p, e) && MarksAt(md, p, n, '#') && md[p + n] == ' ' && p + n < e
    ensures RunAt(md, e, p + n + 1, sps)
  {
    HeadingMarks(md, p, n, SpansSource(sps));
    BlockInLine(md, p, e, Heading(n, sps));
    RunAtOf(md, e, p + n + 1, sps);
  }

  /** The `#`s and the space of a heading, then its title `t`. */
  lemma HeadingMarks(md: string, p: nat, n: nat, t: string)
    requires Occurs(md, p, Repeat('#', n) + " " + t)
    ensures MarksAt(md, p, n, '#') && md[p + n] == ' ' && Occurs(md, p + n + 1, t)
  {
    var x := Repeat('#', n);
    OccursSplit(md, p, x + " ", t);
    OccursSplit(md, p, x, " ");
    MarksOf(md, p, n, '#');
    OccursOne(md, p + n, ' ');
  }

  lemma DashesLayout(md: string, p: nat, e: nat, m: nat, sps: seq<Span>)
    requires BlockAt(md, p, e, Dashes(m, sps))
    ensures InLine(md, p, e) && MarksAt(md, p, m, '-')
    ensures sps == [] ==> e == p + m
    ensures sps != [] ==> Lead(md, p + m, e, sps[0], sps[1..]) && p + m < e && md[p + m] != '-'
  {
    OccursSplit(md, p, Repeat('-', m), SpansSource(sps));
    MarksOf(md, p, m, '-');
    BlockInLine(md, p, e, Dashes(m, sps));
    if sps != [] {
      DashesLead(md, p, e, m, sps);
    }
  }

  lemma DashesLead(md: string, p: nat, e: nat, m: nat, sps: seq<Span>)
    requires InLine(md, p, e) && sps != [] && SpansOk(sps) && FollowsDashes(sps[0])
    requires Occurs(md, p + m, SpansSource(sps)) && e == p + m + |SpansSource(sps)|
    ensures Lead(md, p + m, e, sps[0], sps[1..]) && p + m < e && md[p + m] != '-'
  {
    LeadOf(md, p, p + m, e, sps);
    FollowsDashesHead(sps[0]);
  }

  lemma HashesLayout(md: string, p: nat, e: nat, n: nat, sps: seq<Span>)
    requires BlockAt(md, p, e, Hashes(n, sps))
    ensures InLine(md, p, e) && MarksAt(md, p, n, '#')
    ensures sps == [] ==> e == p + n
    ensures sps != [] ==> Lead(md, p + n, e, sps[0], sps[1..]) && p + n < e && md[p + n] != '#' && md[p + n] != ' '
  {
    OccursSplit(md, p, Repeat('#', n), SpansSource(sps));
    MarksOf(md, p, n, '#');
    BlockInLine(md, p, e, Hashes(n, sps));
    if sps != [] {
      HashesLead(md, p, e, n, sps);
    }
  }

  lemma HashesLead(md: string, p: nat, e: nat, n: nat, sps: seq<Span>)
    requires InLine(md, p, e) && sps != [] && SpansOk(sps) && FollowsHashes(sps[0])
    requires Occurs(md, p + n, SpansSource(sps)) && e == p + n + |SpansSource(sps)|
    ensures Lead(md, p + n, e, sps[0], sps[1..]) && p + n < e && md[p + n] != '#' && md[p + n] != ' '
  {
    LeadOf(md, p, p + n, e, sps);
    FollowsHashesHead(sps[0]);
  }

  lemma ImageLayout(md: string, p: nat, e: nat, alt: string, src: string, rest: seq<Span>)
    requires BlockAt(md, p, e, ImageLine(alt, src, rest))
    ensures InLine(md, p, e) && Lead(md, p, e, Image(alt, src), rest)
  {
    var sps := [Image(alt, src)] + rest;
    assert sps[1..] == rest;
    assert SpansSource(sps) == LineSource(ImageLine(alt, src, rest));
    BlockInLine(md, p, e, ImageLine(alt, src, rest));
    LeadOf(md, p, p, e, sps);
  }

  // The first span of a line, read by the scanner.

  /** One or two `-`s read, a span `w` wide follows at `a`. */
  lemma DashesReady(md: string, tr: seq<Scan>, p: nat, e: nat, m: nat, a: nat, w: nat)
    requires InTrace(md, tr, p, e) && LineStart(md, p, tr[p]) && MarksAt(md, p, m, '-') && 1 <= m <= 2
    requires a == p + m && a < e && a + w <= e && md[a + w] != '[' && md[a] != '-'
    ensures DashesAt(md, tr, p, e, a, w) && tr[a] == tr[p].(horizontalNum := m)
  {
    DashRun(md, tr, p, m, tr[p]);
  }

  /** The span after one or two `-`s. */
  lemma DashesHead(md: string, tr: seq<Scan>, p: nat, e: nat, m: nat, sp: Span, a: nat, b: nat)
    requires InTrace(md, tr, p, e) && LineStart(md, p, tr[p]) && MarksAt(md, p, m, '-') && 1 <= m <= 2
    requires a == p + m && b == a + Width(sp) && b <= e && md[b] != '[' && Occurs(md, a, SpanSource(sp)) && SpanOk(sp)
    requires FollowsDashes(sp) && a < e && md[a] != '-'
    ensures tr[b] == SpanEnd(sp, DashesText(tr[p].(horizontalNum := m)))
    ensures BetweenSpans(tr[b]) && p + tr[b].headingLevel < b && p + tr[b].horizontalNum < b
  {
    DashesReady(md, tr, p, e, m, a, Width(sp));
    DashesSpan(md, tr, p, e, a, sp);
    SpanEndKeeps(sp, DashesText(tr[p].(horizontalNum := m)));
  }

  /** `#`s read that make no heading, a span `w` wide follows at `a`. */
  lemma HashesReady(md: string, tr: seq<Scan>, p: nat, e: nat, n: nat, a: nat, w: nat)
    requires InTrace(md, tr, p, e) && LineStart(md, p, tr[p]) && MarksAt(md, p, n, '#') && 1 <= n <= 7
    requires a == p + n && a < e && a + w <= e && md[a + w] != '[' && md[a] != '#' && md[a] != ' '
    ensures HashesAt(md, tr, p, e, a, w) && tr[a] == tr[p].(headingLevel := n)
  {
    HashRun(md, tr, p, n, tr[p]);
  }

  /** The span after `#`s that are followed by no space. */
  lemma HashesHead(md: string, tr: seq<Scan>, p: nat, e: nat, n: nat, sp: Span, a: nat, b: nat)
    requires InTrace(md, tr, p, e) && LineStart(md, p, tr[p]) && MarksAt(md, p, n, '#') && 1 <= n <= 7
    requires a == p + n && b == a + Width(sp) && b <= e && md[b] != '[' && Occurs(md, a, SpanSource(sp)) && SpanOk(sp)
    requires FollowsHashes(sp) && a < e && md[a] != '#' && md[a] != ' '
    ensures tr[b] == SpanEnd(sp, HashesText(tr[p].(headingLevel := n)))
    ensures BetweenSpans(tr[b]) && p + tr[b].headingLevel < b && p + tr[b].horizontalNum < b
  {
    HashesReady(md, tr, p, e, n, a, Width(sp));
    HashesSpan(md, tr, p, e, a, sp);
    SpanEndKeeps(sp, HashesText(tr[p].(headingLevel := n)));
  }

  /** The `#`s and the space that open a heading. */
  lemma HeadingOpens(md: string, tr: seq<Scan>, p: nat, e: nat, n: nat)
    requires IsTrace(md, tr) && p + n < e < |md| && LineStart(md, p, tr[p]) && MarksAt(md, p, n, '#') && 1 <= n <= 7
    requires md[p + n] == ' '
    ensures tr[p + n + 1] == tr[p].(headingLevel := n, flags := tr[p].flags.(inHeading := true),
                                    line := HeadingOpenTag(n, tr[p].headerNum), headerNum := tr[p].headerNum + 1)
  {
    HashRun(md, tr, p, n, tr[p]);
    HeadingSpaceAt(md, tr, p + n, p + n + 1);
  }

  /** A line at `p` that starts a paragraph whose first span is `w` characters wide. */
  lemma ParaReady(md: string, tr: seq<Scan>, p: nat, e: nat, w: nat)
    requires InTrace(md, tr, p, e) && LineStart(md, p, tr[p]) && p + w <= e && md[p + w] != '[' && 0 < w
    ensures FreshAt(md, tr, p, e, w)
  {
  }

  /** The first span of a paragraph, ending at `b`. */
  lemma ParaFirst(md: string, tr: seq<Scan>, p: nat, e: nat, sp: Span, b: nat)
    requires InTrace(md, tr, p, e) && LineStart(md, p, tr[p])
    requires b == p + Width(sp) && 0 < Width(sp) && b <= e && md[b] != '[' && Occurs(md, p, SpanSource(sp)) && SpanOk(sp)
    requires StartsParagraph(sp)
    ensures tr[b] == SpanEnd(sp, FreshOpen(tr[p]))
    ensures BetweenSpans(tr[b]) && p + tr[b].headingLevel < b && p + tr[b].horizontalNum < b
  {
    ParaReady(md, tr, p, e, Width(sp));
    FreshSpan(md, tr, p, e, sp);
    SpanEndKeeps(sp, FreshOpen(tr[p]));
  }

  /** The image that starts a line, ending at `b`. */
  lemma ImageFirst(md: string, tr: seq<Scan>, p: nat, e: nat, sp: Span, b: nat)
    requires b == p + Width(sp) && sp.Image? && FreshAt(md, tr, p, e, Width(sp)) && Occurs(md, p, SpanSource(sp)) && SpanOk(sp)
    ensures tr[b] == SpanEnd(sp, tr[p])
    ensures BetweenSpans(tr[b]) && p + tr[b].headingLevel < b && p + tr[b].horizontalNum < b
  {
    LeadImage(md, tr, p, e, sp);
    SpanEndKeeps(sp, tr[p]);
  }

  /** The spans after the first one, read from the state it leaves at `b`. */
  lemma LineTail(md: string, tr: seq<Scan>, p: nat, e: nat, b: nat, rest: seq<Span>)
    requires InTrace(md, tr, p, e) && b <= e && RunAt(md, e, b, rest)
    requires BetweenSpans(tr[b]) && p + tr[b].headingLevel < b && p + tr[b].horizontalNum < b
    ensures tr[e] == SpansEnd(rest, tr[b])
  {
    MidSpans(md, tr, p, e, tr[b], b, rest);
  }

  lemma ParaBody(md: string, tr: seq<Scan>, p: nat, e: nat, sp: Span, rest: seq<Span>)
    requires InTrace(md, tr, p, e) && LineStart(md, p, tr[p]) && Lead(md, p, e, sp, rest) && StartsParagraph(sp)
    ensures tr[e] == SpansEnd(rest, SpanEnd(sp, FreshOpen(tr[p])))
  {
    var b := p + Width(sp);
    ParaFirst(md, tr, p, e, sp, b);
    LineTail(md, tr, p, e, b, rest);
    Chain(tr[e], tr[b], rest, SpanEnd(sp, FreshOpen(tr[p])));
  }

  lemma DashesBody(md: string, tr: seq<Scan>, p: nat, e: nat, m: nat, sp: Span, rest: seq<Span>)
    requires InTrace(md, tr, p, e) && LineStart(md, p, tr[p]) && MarksAt(md, p, m, '-') && 1 <= m <= 2
    requires Lead(md, p + m, e, sp, rest) && FollowsDashes(sp) && p + m < e && md[p + m] != '-'
    ensures tr[e] == SpansEnd(rest, SpanEnd(sp, DashesText(tr[p].(horizontalNum := m))))
  {
    var b := p + m + Width(sp);
    DashesHead(md, tr, p, e, m, sp, p + m, b);
    LineTail(md, tr, p, e, b, rest);
    Chain(tr[e], tr[b], rest, SpanEnd(sp, DashesText(tr[p].(horizontalNum := m))));
  }

  lemma HashesBody(md: string, tr: seq<Scan>, p: nat, e: nat, n: nat, sp: Span, rest: seq<Span>)
    requires InTrace(md, tr, p, e) && LineStart(md, p, tr[p]) && MarksAt(md, p, n, '#') && 1 <= n <= 7
    requires Lead(md, p + n, e, sp, rest) && FollowsHashes(sp) && p + n < e && md[p + n] != '#' && md[p + n] != ' '
    ensures tr[e] == SpansEnd(rest, SpanEnd(sp, HashesText(tr[p].(headingLevel := n))))
  {
    var b := p + n + Width(sp);
    HashesHead(md, tr, p, e, n, sp, p + n, b);
    LineTail(md, tr, p, e, b, rest);
    Chain(tr[e], tr[b], rest, SpanEnd(sp, HashesText(tr[p].(headingLevel := n))));
  }

  lemma HeadingBody(md: string, tr: seq<Scan>, p: nat, e: nat, n: nat, sps: seq<Span>)
    requires InTrace(md, tr, p, e) && LineStart(md, p, tr[p]) && MarksAt(md, p, n, '#') && 1 <= n <= 7
    requires p + n < e && md[p + n] == ' ' && RunAt(md, e, p + n + 1, sps)
    ensures tr[e] == SpansEnd(sps, tr[p].(headingLevel := n, flags := tr[p].flags.(inHeading := true),
                                          line := HeadingOpenTag(n, tr[p].headerNum), headerNum := tr[p].headerNum + 1))
  {
    HeadingOpens(md, tr, p, e, n);
    LineTail(md, tr, p, e, p + n + 1, sps);
    Chain(tr[e], tr[p + n + 1], sps, tr[p].(headingLevel := n, flags := tr[p].flags.(inHeading := true),
                                            line := HeadingOpenTag(n, tr[p].headerNum), headerNum := tr[p].headerNum + 1));
  }

  lemma ImageBody(md: string, tr: seq<Scan>, p: nat, e: nat, alt: string, src: string, rest: seq<Span>)
    requires InTrace(md, tr, p, e) && LineStart(md, p, tr[p]) && Lead(md, p, e, Image(alt, src), rest)
    ensures tr[e] == SpansEnd(rest, SpanEnd(Image(alt, src), tr[p]))
  {
    var b := p + Width(Image(alt, src));
    ImageFirst(md, tr, p, e, Image(alt, src), b);
    LineTail(md, tr, p, e, b, rest);
    Chain(tr[e], tr[b], rest, SpanEnd(Image(alt, src), tr[p]));
  }

  /** The spans after the first one, read from the state the first one leaves. */
  lemma Chain(last: Scan, mid: Scan, rest: seq<Span>, t: Scan)
    requires last == SpansEnd(rest, mid) && mid == t
    ensures last == SpansEnd(rest, t)
  {
  }

  // The text a line has built, as plain strings.

  lemma JoinAssoc(h: string, l: string, c: string)
    ensures h + l + c == h + (l + c)
  {
  }

  lemma JoinAssoc3(h: string, l: string, c: string, d: string)
    ensures h + l + c + d == h + (l + c + d)
  {
  }

  lemma NoSuffix(x: string)
    ensures x + "" == x
  {
  }

  lemma OpensWithP(x: string, y: string)
    ensures StartsWith("<p>" + x + y, "<p>")
  {
    assert ("<p>" + x + y)[..3] == "<p>";
  }

  lemma ParaText(s: Scan, sps: seq<Span>)
    requires s.line == ""
    ensures SpansEnd(sps, FreshOpen(s)).line == "<p>" + "" + RenderSpans(sps)
  {
  }

  lemma HashesTextLine(s: Scan, n: nat, sps: seq<Span>)
    requires s.line == ""
    ensures SpansEnd(sps, HashesText(s.(headingLevel := n))).line == "<p>" + Repeat('#', n) + RenderSpans(sps)
  {
  }

  /** One or two dashes alone: the state is the one a dashes line without spans reaches. */
  lemma DashesAloneState(s: Scan, m: nat)
    ensures SpansEnd([], DashesText(s.(horizontalNum := m))) == s.(horizontalNum := m, line := "<p>" + Repeat('-', m))
  {
    assert "<p>" + Repeat('-', m) + "" == "<p>" + Repeat('-', m);
  }

  lemma HeadingText(n: nat, id: nat, r: string)
    ensures !StartsWith(HeadingOpenTag(n, id) + r, "<p>")
  {
    NoParagraph(HeadingOpenTag(n, id) + r);
  }

  lemma RuleText()
    ensures "<hr>" + "\n" == "<hr>\n" && !StartsWith("<hr>", "<p>")
  {
    NoParagraph("<hr>");
  }

  /** The HTML of a line that starts with an image: the image, then the rest. */
  lemma ImageText(s: Scan, alt: string, src: string, rest: seq<Span>)
    requires s.line == ""
    ensures SpansEnd(rest, SpanEnd(Image(alt, src), s)).line == RenderSpan(Image(alt, src)) + RenderSpans(rest)
    ensures SpansEnd(rest, SpanEnd(Image(alt, src), s)).flags.wasImage == EndsWithImage(rest, true)
  {
  }

  lemma ImageLineText(alt: string, src: string, rest: seq<Span>)
    requires SpanOk(Image(alt, src)) && SpansOk(rest)
    ensures !StartsWith(RenderSpan(Image(alt, src)) + RenderSpans(rest), "<p>")
    ensures var l := RenderSpan(Image(alt, src)) + RenderSpans(rest); l != [] && l[|l| - 1] != '\n'
  {
    var img := RenderSpan(Image(alt, src));
    var l := img + RenderSpans(rest);
    assert l[1] == 'i';
    NoParagraph(l);
    RenderNoNewline(Image(alt, src));
    RenderSpansNoNewline(rest);
    NoNewlineJoin(img, RenderSpans(rest));
  }

  // The newline that ends a line.

  /** A paragraph line `l`: `</p>` and a newline follow it. */
  lemma ParaCloses(md: string, tr: seq<Scan>, e: nat, l: string)
    requires IsTrace(md, tr) && e < |md| && md[e] == '\n' && BetweenSpans(tr[e]) && tr[e].line == l
    requires StartsWith(l, "<p>") && !tr[e].flags.horizontalRule && !tr[e].flags.inHeading && tr[e].headingLevel == 0
    ensures tr[e + 1].html == Finish(md, e, tr[e].html + (l + "</p>\n")) && tr[e + 1].headerNum == tr[e].headerNum
    ensures LineStart(md, e + 1, tr[e + 1])
  {
    NewlineAt(md, tr, e, e + 1);
    CloseParagraph(md, e, tr[e]);
    JoinAssoc(tr[e].html, l, "</p>\n");
  }

  /** A heading line `l`: its closing tag and a newline follow it. */
  lemma HeadingCloses(md: string, tr: seq<Scan>, e: nat, l: string)
    requires IsTrace(md, tr) && e < |md| && md[e] == '\n' && BetweenSpans(tr[e]) && tr[e].line == l
    requires !StartsWith(l, "<p>") && !tr[e].flags.horizontalRule && !tr[e].flags.wasImage && tr[e].flags.inHeading
    ensures tr[e + 1].html == Finish(md, e, tr[e].html + (l + HeadingCloseTag(tr[e].headingLevel) + "\n"))
    ensures tr[e + 1].headerNum == tr[e].headerNum && LineStart(md, e + 1, tr[e + 1])
  {
    NewlineAt(md, tr, e, e + 1);
    CloseHeading(md, e, tr[e]);
    JoinAssoc3(tr[e].html, l, HeadingCloseTag(tr[e].headingLevel), "\n");
  }

  /** A line that makes neither `<p>` nor a heading, nor ends with a rule or an image:
      it is kept as it is. */
  lemma PlainCloses(md: string, tr: seq<Scan>, e: nat, l: string)
    requires IsTrace(md, tr) && e < |md| && md[e] == '\n' && BetweenSpans(tr[e]) && tr[e].line == l
    requires !StartsWith(l, "<p>") && !tr[e].flags.horizontalRule && !tr[e].flags.wasImage && !tr[e].flags.inHeading
    ensures tr[e + 1].html == Finish(md, e, tr[e].html + l) && tr[e + 1].headerNum == tr[e].headerNum
    ensures LineStart(md, e + 1, tr[e + 1])
  {
    NewlineAt(md, tr, e, e + 1);
    ClosePlain(md, e, tr[e]);
  }

  /** A rule, or a line that ends with an image: a newline follows it. */
  lemma MarkedCloses(md: string, tr: seq<Scan>, e: nat, l: string)
    requires IsTrace(md, tr) && e < |md| && md[e] == '\n' && BetweenSpans(tr[e]) && tr[e].line == l
    requires !StartsWith(l, "<p>") && (tr[e].flags.horizontalRule || tr[e].flags.wasImage)
    requires l != [] && l[|l| - 1] != '\n' && tr[e].headingLevel == 0 && !tr[e].flags.inHeading
    ensures tr[e + 1].html == Finish(md, e, tr[e].html + (l + "\n")) && tr[e + 1].headerNum == tr[e].headerNum
    ensures LineStart(md, e + 1, tr[e + 1])
  {
    NewlineAt(md, tr, e, e + 1);
    CloseMarked(md, e, tr[e]);
    JoinAssoc(tr[e].html, l, "\n");
  }

  // Each kind of line.

  /** The scanner is at the start of the line that holds `b`, in a trace of input that ends
      with a newline. */
  predicate LineAt(md: string, tr: seq<Scan>, p: nat, e: nat, b: Block)
  {
    BlockAt(md, p, e, b) && IsTrace(md, tr) && md[|md| - 1] == '\n' && LineStart(md, p, tr[p])
  }

  /** The line after the block has been laid out: the trace and the line's place. */
  predicate LineReady(md: string, tr: seq<Scan>, p: nat, e: nat)
  {
    InTrace(md, tr, p, e) && LineStart(md, p, tr[p])
  }

  lemma BlankLine(md: string, tr: seq<Scan>, p: nat, e: nat)
    requires LineAt(md, tr, p, e, Blank)
    ensures LineDone(md, tr, p, e, Blank)
  {
    PlainCloses(md, tr, e, "");
  }

  lemma ParaEnd(md: string, tr: seq<Scan>, p: nat, e: nat, sps: seq<Span>)
    requires LineReady(md, tr, p, e) && tr[e] == SpansEnd(sps, FreshOpen(tr[p]))
    ensures LineDone(md, tr, p, e, Para(sps))
  {
    ParaText(tr[p], sps);
    OpensWithP("", RenderSpans(sps));
    ParaCloses(md, tr, e, "<p>" + "" + RenderSpans(sps));
  }

  lemma ParaRead(md: string, tr: seq<Scan>, p: nat, e: nat, sps: seq<Span>)
    requires LineReady(md, tr, p, e) && sps != [] && Lead(md, p, e, sps[0], sps[1..]) && StartsParagraph(sps[0])
    ensures LineDone(md, tr, p, e, Para(sps))
  {
    ParaBody(md, tr, p, e, sps[0], sps[1..]);
    SpansEndCons(sps, FreshOpen(tr[p]));
    ParaEnd(md, tr, p, e, sps);
  }

  lemma ParaLine(md: string, tr: seq<Scan>, p: nat, e: nat, sps: seq<Span>)
    requires LineAt(md, tr, p, e, Para(sps))
    ensures LineDone(md, tr, p, e, Para(sps))
  {
    ParaLayout(md, p, e, sps);
    ParaRead(md, tr, p, e, sps);
  }

  lemma HeadingEnd(md: string, tr: seq<Scan>, p: nat, e: nat, n: nat, sps: seq<Span>)
    requires LineReady(md, tr, p, e) && NoImages(sps)
    requires tr[e] == SpansEnd(sps, tr[p].(headingLevel := n, flags := tr[p].flags.(inHeading := true),
                                           line := HeadingOpenTag(n, tr[p].headerNum), headerNum := tr[p].headerNum + 1))
    ensures LineDone(md, tr, p, e, Heading(n, sps))
  {
    NoImagesEnd(sps);
    HeadingText(n, tr[p].headerNum, RenderSpans(sps));
    HeadingCloses(md, tr, e, HeadingOpenTag(n, tr[p].headerNum) + RenderSpans(sps));
  }

  lemma HeadingRead(md: string, tr: seq<Scan>, p: nat, e: nat, n: nat, sps: seq<Span>)
    requires LineReady(md, tr, p, e) && MarksAt(md, p, n, '#') && 1 <= n <= 7 && NoImages(sps)
    requires p + n < e && md[p + n] == ' ' && RunAt(md, e, p + n + 1, sps)
    ensures LineDone(md, tr, p, e, Heading(n, sps))
  {
    HeadingBody(md, tr, p, e, n, sps);
    HeadingEnd(md, tr, p, e, n, sps);
  }

  lemma HeadingLine(md: string, tr: seq<Scan>, p: nat, e: nat, n: nat, sps: seq<Span>)
    requires LineAt(md, tr, p, e, Heading(n, sps))
    ensures LineDone(md, tr, p, e, Heading(n, sps))
  {
    HeadingLayout(md, p, e, n, sps);
    HeadingRead(md, tr, p, e, n, sps);
  }

  lemma RuleLine(md: string, tr: seq<Scan>, p: nat, e: nat, m: nat)
    requires LineAt(md, tr, p, e, Rule(m))
    ensures LineDone(md, tr, p, e, Rule(m))
  {
    MarksOf(md, p, m, '-');
    RuleRun(md, tr, p, m, tr[p]);
    RuleEnd(md, tr, p, e, m);
  }

  lemma RuleEnd(md: string, tr: seq<Scan>, p: nat, e: nat, m: nat)
    requires IsTrace(md, tr) && p < e < |md| && md[e] == '\n' && LineStart(md, p, tr[p])
    requires tr[e] == tr[p].(horizontalNum := m, flags := tr[p].flags.(horizontalRule := true), line := "<hr>")
    ensures LineDone(md, tr, p, e, Rule(m))
  {
    RuleText();
    MarkedCloses(md, tr, e, "<hr>");
  }

  lemma DashesEnd(md: string, tr: seq<Scan>, p: nat, e: nat, m: nat, sps: seq<Span>)
    requires LineReady(md, tr, p, e) && tr[e] == SpansEnd(sps, DashesText(tr[p].(horizontalNum := m)))
    ensures LineDone(md, tr, p, e, Dashes(m, sps))
  {
    OpensWithP(Repeat('-', m), RenderSpans(sps));
    ParaCloses(md, tr, e, "<p>" + Repeat('-', m) + RenderSpans(sps));
  }

  lemma DashesRead(md: string, tr: seq<Scan>, p: nat, e: nat, m: nat, sps: seq<Span>)
    requires LineReady(md, tr, p, e) && MarksAt(md, p, m, '-') && 1 <= m <= 2
    requires sps == [] ==> e == p + m
    requires sps != [] ==> Lead(md, p + m, e, sps[0], sps[1..]) && FollowsDashes(sps[0]) && p + m < e && md[p + m] != '-'
    ensures LineDone(md, tr, p, e, Dashes(m, sps))
  {
    if sps == [] {
      DashesAlone(md, tr, p, m, tr[p]);
      DashesAloneState(tr[p], m);
    } else {
      DashesBody(md, tr, p, e, m, sps[0], sps[1..]);
      SpansEndCons(sps, DashesText(tr[p].(horizontalNum := m)));
    }
    DashesEnd(md, tr, p, e, m, sps);
  }

  lemma DashesLine(md: string, tr: seq<Scan>, p: nat, e: nat, m: nat, sps: seq<Span>)
    requires LineAt(md, tr, p, e, Dashes(m, sps))
    ensures LineDone(md, tr, p, e, Dashes(m, sps))
  {
    DashesLayout(md, p, e, m, sps);
    DashesRead(md, tr, p, e, m, sps);
  }

  lemma HashesEnd(md: string, tr: seq<Scan>, p: nat, e: nat, n: nat, sps: seq<Span>)
    requires LineReady(md, tr, p, e) && sps != [] && tr[e] == SpansEnd(sps, HashesText(tr[p].(headingLevel := n)))
    ensures LineDone(md, tr, p, e, Hashes(n, sps))
  {
    HashesTextLine(tr[p], n, sps);
    OpensWithP(Repeat('#', n), RenderSpans(sps));
    ParaCloses(md, tr, e, "<p>" + Repeat('#', n) + RenderSpans(sps));
  }

  lemma HashesRead(md: string, tr: seq<Scan>, p: nat, e: nat, n: nat, sps: seq<Span>)
    requires LineReady(md, tr, p, e) && MarksAt(md, p, n, '#') && 1 <= n <= 7
    requires sps == [] ==> e == p + n
    requires sps != [] ==> Lead(md, p + n, e, sps[0], sps[1..]) && FollowsHashes(sps[0]) && p + n < e && md[p + n] != '#' && md[p + n] != ' '
    ensures LineDone(md, tr, p, e, Hashes(n, sps))
  {
    if sps == [] {
      HashRun(md, tr, p, n, tr[p]);
      PlainCloses(md, tr, e, "");
    } else {
      HashesBody(md, tr, p, e, n, sps[0], sps[1..]);
      SpansEndCons(sps, HashesText(tr[p].(headingLevel := n)));
      HashesEnd(md, tr, p, e, n, sps);
    }
  }

  lemma HashesLine(md: string, tr: seq<Scan>, p: nat, e: nat, n: nat, sps: seq<Span>)
    requires LineAt(md, tr, p, e, Hashes(n, sps))
    ensures LineDone(md, tr, p, e, Hashes(n, sps))
  {
    HashesLayout(md, p, e, n, sps);
    HashesRead(md, tr, p, e, n, sps);
  }

  lemma ImageRead(md: string, tr: seq<Scan>, p: nat, e: nat, alt: string, src: string, rest: seq<Span>)
    requires LineReady(md, tr, p, e) && Lead(md, p, e, Image(alt, src), rest) && SpansOk(rest)
    ensures LineDone(md, tr, p, e, ImageLine(alt, src, rest))
  {
    ImageBody(md, tr, p, e, alt, src, rest);
    ImageEnd(md, tr, p, e, alt, src, rest);
  }

  lemma ImageEnd(md: string, tr: seq<Scan>, p: nat, e: nat, alt: string, src: string, rest: seq<Span>)
    requires LineReady(md, tr, p, e) && SpanOk(Image(alt, src)) && SpansOk(rest)
    requires tr[e] == SpansEnd(rest, SpanEnd(Image(alt, src), tr[p]))
    ensures LineDone(md, tr, p, e, ImageLine(alt, src, rest))
  {
    ImageText(tr[p], alt, src, rest);
    ImageLineText(alt, src, rest);
    var l := RenderSpan(Image(alt, src)) + RenderSpans(rest);
    var b := ImageLine(alt, src, rest);
    assert tr[e].html == tr[p].html && tr[e].headerNum == tr[p].headerNum;
    if EndsWithImage(rest, true) {
      MarkedCloses(md, tr, e, l);
      assert RenderBlock(b, tr[p].headerNum) == l + "\n";
    } else {
      NoSuffix(l);
      PlainCloses(md, tr, e, l);
      assert RenderBlock(b, tr[p].headerNum) == l;
    }
  }

  lemma ImageLineDone(md: string, tr: seq<Scan>, p: nat, e: nat, alt: string, src: string, rest: seq<Span>)
    requires LineAt(md, tr, p, e, ImageLine(alt, src, rest))
    ensures LineDone(md, tr, p, e, ImageLine(alt, src, rest))
  {
    ImageLayout(md, p, e, alt, src, rest);
    ImageRead(md, tr, p, e, alt, src, rest);
  }

  /** Whatever kind of line a block is, the scanner renders it. */
  lemma AnyLine(md: string, tr: seq<Scan>, p: nat, e: nat, b: Block)
    requires LineAt(md, tr, p, e, b)
    ensures LineDone(md, tr, p, e, b)
  {
    match b
    case Blank => BlankLine(md, tr, p, e);
    case Para(sps) => ParaLine(md, tr, p, e, sps);
    case Heading(n, sps) => HeadingLine(md, tr, p, e, n, sps);
    case Rule(m) => RuleLine(md, tr, p, e, m);
    case Dashes(m, sps) => DashesLine(md, tr, p, e, m, sps);
    case Hashes(n, sps) => HashesLine(md, tr, p, e, n, sps);
    case ImageLine(alt, src, rest) => ImageLineDone(md, tr, p, e, alt, src, rest);
  }
}
