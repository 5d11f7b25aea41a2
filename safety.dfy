/** Sanitization: the output is text without angle brackets, interleaved with
    tags of exactly the forms the scanner writes (`<p>`, `</p>`, `<hr>`, `<i>`,
    `</i>`, `<b>`, `</b>`, `<code>`, `</code>`, `<hN id='header-K'>`, `</hN>`
    and `<img src="…" alt="…">` with no angle bracket in `src` or `alt`). So the
    input cannot open, close or rename a tag; quotes inside `src` and `alt` are left
    as they are, as the scanner leaves them. */
module MakotoSafety {
  import opened JsStrings
  import opened Makoto

  predicate NoAngles(s: string)
  {
    forall k :: 0 <= k < |s| ==> s[k] != '<' && s[k] != '>'
  }

  /** The first `>` at or after `k`, or `|s|` when there is none. */
  function TagEnd(s: string, k: nat): (j: nat)
    requires k <= |s|
    ensures k <= j <= |s|
    ensures j < |s| ==> s[j] == '>'
    decreases |s| - k
  {
    if k == |s| || s[k] == '>' then k else TagEnd(s, k + 1)
  }

  /** The body of a heading's opening tag: `hN id='header-K'`. */
  function HeadingOpenBody(level: nat, id: nat): string
  {
    ("h" + NatToString(level)) + " " + ("id='header-" + NatToString(id) + "'")
  }

  /** The body of an image tag: `img src="…" alt="…"`. */
  function ImageBody(src: string, alt: string): string
  {
    "img src=\"" + src + "\" alt=\"" + alt + "\""
  }

  /** The tag bodies `parse_md_to_html` writes, each exactly as it writes it: paragraphs,
      rules, emphasis, code, headings with their ids, and images whose `src` and `alt`
      hold no angle bracket. */
  ghost predicate KnownTag(b: string)
  {
    b in {"p", "/p", "hr", "i", "/i", "b", "/b", "code", "/code"}
    || (exists level: nat, id: nat :: b == HeadingOpenBody(level, id))
    || (exists level: nat :: b == "/h" + NatToString(level))
    || (exists src: string, alt: string :: NoAngles(src) && NoAngles(alt) && b == ImageBody(src, alt))
  }

  /** Text without angle brackets, interleaved with known tags. */
  ghost predicate Clean(s: string)
    decreases |s|
  {
    if s == [] then true
    else if s[0] == '>' then false
    else if s[0] != '<' then Clean(s[1..])
    else
      var j := TagEnd(s, 1);
      j < |s| && NoAngles(s[1..j]) && KnownTag(s[1..j]) && Clean(s[j + 1..])
  }

  lemma {:induction false} CleanText(t: string)
    requires NoAngles(t)
    ensures Clean(t)
    decreases |t|
  {
    if t != [] {
      CleanText(t[1..]);
    }
  }

  lemma {:induction false} TagEndPrefix(a: string, b: string, k: nat)
    requires k <= |a| && TagEnd(a, k) < |a|
    ensures TagEnd(a + b, k) == TagEnd(a, k)
    decreases |a| - k
  {
    if a[k] != '>' {
      TagEndPrefix(a, b, k + 1);
    }
  }

  lemma {:induction false} CleanConcat(a: string, b: string)
    requires Clean(a) && Clean(b)
    ensures Clean(a + b)
    decreases |a|, 1
  {
    if a == [] {
      assert a + b == b;
    } else if a[0] != '<' {
      CleanConcat(a[1..], b);
      assert (a + b)[1..] == a[1..] + b;
    } else {
      CleanConcatTag(a, b);
    }
  }

  /** The case of `CleanConcat` where `a` opens with a tag. */
  lemma {:induction false} CleanConcatTag(a: string, b: string)
    requires Clean(a) && Clean(b) && a != [] && a[0] == '<'
    ensures Clean(a + b)
    decreases |a|, 0
  {
    var j := TagEnd(a, 1);
    TagEndPrefix(a, b, 1);
    assert (a + b)[1..j] == a[1..j];
    assert (a + b)[j + 1..] == a[j + 1..] + b;
    CleanConcat(a[j + 1..], b);
  }

  lemma CleanConcat3(a: string, b: string, c: string)
    requires Clean(a) && Clean(b) && Clean(c)
    ensures Clean(a + b + c)
  {
    CleanConcat(a, b);
    CleanConcat(a + b, c);
  }

  /** A known tag body without angle brackets, between `<` and `>`. */
  lemma CleanTag(b: string)
    requires NoAngles(b) && KnownTag(b)
    ensures Clean("<" + b + ">")
  {
    var s := "<" + b + ">";
    assert s[1..|b| + 1] == b;
    assert forall m :: 1 <= m < |b| + 1 ==> s[m] == b[m - 1];
    TagEndFirst(s, 1, |b| + 1);
    assert s[|b| + 2..] == [];
  }

  lemma CleanSimpleTag(b: string)
    requires b in {"p", "/p", "hr", "i", "/i", "b", "/b", "code", "/code"}
    ensures Clean("<" + b + ">")
  {
    CleanTag(b);
  }

  lemma CleanTagP()
    ensures Clean("<p>")
  {
    CleanSimpleTag("p");
    assert "<p>" == "<" + "p" + ">";
  }

  lemma CleanTagClosingP()
    ensures Clean("</p>")
  {
    CleanSimpleTag("/p");
    assert "</p>" == "<" + "/p" + ">";
  }

  lemma CleanTagHr()
    ensures Clean("<hr>")
  {
    CleanSimpleTag("hr");
    assert "<hr>" == "<" + "hr" + ">";
  }

  lemma CleanTagI()
    ensures Clean("<i>")
  {
    CleanSimpleTag("i");
    assert "<i>" == "<" + "i" + ">";
  }

  lemma CleanTagClosingI()
    ensures Clean("</i>")
  {
    CleanSimpleTag("/i");
    assert "</i>" == "<" + "/i" + ">";
  }

  lemma CleanTagB()
    ensures Clean("<b>")
  {
    CleanSimpleTag("b");
    assert "<b>" == "<" + "b" + ">";
  }

  lemma CleanTagClosingB()
    ensures Clean("</b>")
  {
    CleanSimpleTag("/b");
    assert "</b>" == "<" + "/b" + ">";
  }

  lemma CleanTagCode()
    ensures Clean("<code>")
  {
    CleanSimpleTag("code");
    assert "<code>" == "<" + "code" + ">";
  }

  lemma CleanTagClosingCode()
    ensures Clean("</code>")
  {
    CleanSimpleTag("/code");
    assert "</code>" == "<" + "/code" + ">";
  }

  lemma CleanParagraphEnd()
    ensures Clean("</p>\n")
  {
    CleanTagClosingP();
    CleanText("\n");
    CleanConcat("</p>", "\n");
    assert "</p>" + "\n" == "</p>\n";
  }

  lemma NoAnglesDigits(d: string)
    requires AllDigits(d)
    ensures NoAngles(d) && forall k :: 0 <= k < |d| ==> d[k] != ' '
  {
  }

  lemma HeadingOpenIsTag(level: nat, id: nat)
    ensures HeadingOpenTag(level, id) == "<" + HeadingOpenBody(level, id) + ">"
  {
  }

  lemma HeadingOpenBodyKnown(level: nat, id: nat)
    ensures KnownTag(HeadingOpenBody(level, id))
  {
  }

  lemma HeadingOpenBodyNoAngles(level: nat, id: nat)
    ensures NoAngles(HeadingOpenBody(level, id))
  {
    var n, m := NatToString(level), NatToString(id);
    NoAnglesDigits(n);
    NoAnglesDigits(m);
    NoAnglesConcat("h", n);
    NoAnglesConcat("id='header-", m);
    NoAnglesConcat("id='header-" + m, "'");
    NoAnglesConcat("h" + n, " ");
    NoAnglesConcat("h" + n + " ", "id='header-" + m + "'");
  }

  lemma CleanHeadingOpen(level: nat, id: nat)
    ensures Clean(HeadingOpenTag(level, id))
  {
    HeadingOpenIsTag(level, id);
    HeadingOpenBodyKnown(level, id);
    HeadingOpenBodyNoAngles(level, id);
    CleanTag(HeadingOpenBody(level, id));
  }

  lemma CleanHeadingClose(level: nat)
    ensures Clean(HeadingCloseTag(level))
  {
    var n := NatToString(level);
    var b := "/h" + n;
    NoAnglesDigits(n);
    assert KnownTag(b);
    assert HeadingCloseTag(level) == "<" + b + ">";
    CleanTag(b);
  }

  lemma ImageTagIsTag(src: string, alt: string)
    ensures ImageTag(src, alt) == "<" + ImageBody(src, alt) + ">"
  {
    assert "<img src=\"" == "<" + "img src=\"";
    assert "\">" == "\"" + ">";
  }

  lemma ImageBodyNoAngles(src: string, alt: string)
    requires NoAngles(src) && NoAngles(alt)
    ensures NoAngles(ImageBody(src, alt))
  {
    NoAnglesConcat("img src=\"", src);
    NoAnglesConcat("img src=\"" + src, "\" alt=\"");
    NoAnglesConcat("img src=\"" + src + "\" alt=\"", alt);
    NoAnglesConcat("img src=\"" + src + "\" alt=\"" + alt, "\"");
  }

  lemma CleanImageTag(src: string, alt: string)
    requires NoAngles(src) && NoAngles(alt)
    ensures Clean(ImageTag(src, alt))
  {
    var b := ImageBody(src, alt);
    ImageBodyNoAngles(src, alt);
    assert KnownTag(b);
    ImageTagIsTag(src, alt);
    CleanTag(b);
  }

  lemma NoAnglesRepeat(c: char, n: nat)
    requires c != '<' && c != '>'
    ensures NoAngles(Repeat(c, n))
  {
  }

  lemma CleanMarks(c: char, n: nat)
    requires c != '<' && c != '>'
    ensures Clean("<p>" + Repeat(c, n))
  {
    CleanTagP();
    NoAnglesRepeat(c, n);
    CleanText(Repeat(c, n));
    CleanConcat("<p>", Repeat(c, n));
  }

  lemma CleanSanitize(c: char)
    ensures NoAngles(Sanitize(c)) && Clean(Sanitize(c))
  {
    CleanText(Sanitize(c));
  }

  lemma NoAnglesConcat(a: string, b: string)
    requires NoAngles(a) && NoAngles(b)
    ensures NoAngles(a + b)
  {
  }

  lemma {:induction false} CleanDropLast(s: string)
    requires Clean(s) && s != [] && s[|s| - 1] != '>'
    ensures Clean(s[..|s| - 1])
    decreases |s|, 1
  {
    if |s| == 1 {
    } else if s[0] != '<' {
      CleanDropLast(s[1..]);
      assert s[..|s| - 1][1..] == s[1..][..|s| - 2];
    } else {
      CleanDropLastTag(s);
    }
  }

  /** The case of `CleanDropLast` where `s` opens with a tag. */
  lemma {:induction false} CleanDropLastTag(s: string)
    requires Clean(s) && |s| > 1 && s[|s| - 1] != '>' && s[0] == '<'
    ensures Clean(s[..|s| - 1])
    decreases |s|, 0
  {
    var j := TagEnd(s, 1);
    var s' := s[..|s| - 1];
    assert j < |s| - 1;
    TagEndAgrees(s, s', 1, j);
    assert s'[1..j] == s[1..j];
    assert s'[j + 1..] == s[j + 1..][..|s[j + 1..]| - 1];
    CleanDropLast(s[j + 1..]);
  }

  /** A string that agrees with `s` up to the first `>` of `s` has its first `>` there too. */
  lemma {:induction false} TagEndAgrees(s: string, t: string, k: nat, j: nat)
    requires k <= |s| && TagEnd(s, k) == j && j < |s| && j < |t|
    requires forall m :: k <= m <= j ==> t[m] == s[m]
    ensures TagEnd(t, k) == j
    decreases j - k
  {
    if s[k] != '>' {
      TagEndAgrees(s, t, k + 1, j);
    }
  }

  lemma {:induction false} TagEndFirst(s: string, k: nat, j: nat)
    requires k <= j < |s| && s[j] == '>'
    requires forall m :: k <= m < j ==> s[m] != '>'
    ensures TagEnd(s, k) == j
    decreases j - k
  {
    if k < j {
      TagEndFirst(s, k + 1, j);
    }
  }

  lemma {:induction false} CleanTrimStart(s: string)
    requires Clean(s)
    ensures Clean(TrimStart(s))
    decreases |s|
  {
    if s != [] && IsJsWhitespace(s[0]) {
      CleanTrimStart(s[1..]);
    }
  }

  lemma {:induction false} CleanTrimEnd(s: string)
    requires Clean(s)
    ensures Clean(TrimEnd(s))
    decreases |s|
  {
    if s != [] && IsJsWhitespace(s[|s| - 1]) {
      CleanDropLast(s);
      CleanTrimEnd(s[..|s| - 1]);
    }
  }

  lemma CleanTrim(s: string)
    requires Clean(s)
    ensures Clean(Trim(s))
  {
    CleanTrimStart(s);
    CleanTrimEnd(TrimStart(s));
  }

  /** What the loop keeps: both buffers clean, the image parts free of angle brackets. */
  ghost predicate Safe(s: Scan)
  {
    Clean(s.html) && Clean(s.line)
    && (s.imageAlt.Some? ==> NoAngles(s.imageAlt.value))
    && (s.imageSrc.Some? ==> NoAngles(s.imageSrc.value))
  }


  // The shapes of the phases: what each one may do to the buffers and the image parts.
  // They mention no `Clean`, so that the case analysis over a phase stays cheap.

  lemma HeadingRunShape(md: string, i: nat, s: Scan) returns (t: string)
    requires i < |md|
    ensures var r := HeadingRun(md, i, s).s;
      r.html == s.html && r.imageAlt == s.imageAlt && r.imageSrc == s.imageSrc && r.line == s.line + t
    ensures t == "" || t == HeadingOpenTag(s.headingLevel, s.headerNum) || t == "<p>" + Repeat('#', s.headingLevel)
  {
    var c := md[i];
    if !RunAnchored(md, i, s.headingLevel, '#', s.flags.isFirstLine) {
      t := "";
    } else if c == '#' && !s.flags.inHeading && s.headingLevel <= 6 {
      t := "";
    } else if s.headingLevel > 0 && c == ' ' && !s.flags.inHeading {
      t := HeadingOpenTag(s.headingLevel, s.headerNum);
    } else if s.headingLevel > 0 {
      t := "<p>" + Repeat('#', s.headingLevel);
      assert s.line + "<p>" + Repeat('#', s.headingLevel) == s.line + t;
    } else {
      t := "";
    }
  }

  lemma RuleRunShape(md: string, i: nat, s: Scan)
    requires i < |md|
    ensures var r := RuleRun(md, i, s).s;
      r.html == s.html && r.imageAlt == s.imageAlt && r.imageSrc == s.imageSrc
      && (r.line == s.line || r.line == "<hr>" || r.line == "<p>" + Repeat('-', s.horizontalNum)
          || r.line == "<p>" + Repeat('-', s.horizontalNum + 1))
  {
    var c := md[i];
    if !RunAnchored(md, i, s.horizontalNum, '-', s.flags.isFirstLine) {
    } else if c == '-' {
      var n := s.horizontalNum + 1;
      if n == 3 || (n == 2 && At(md, |md| - 1) == Some('-') && i == |md| - 2) {
      } else if n < 3 && (At(md, i + 1) == Some('\n') || i == |md| - 2) {
      } else {
      }
    } else if s.horizontalNum > 0 {
    } else {
    }
  }

  lemma ImageSyntaxShape(md: string, i: nat, s: Scan) returns (src: string)
    requires i < |md|
    ensures var r, t := ImageSyntax(md, i, s).s, Sanitize(md[i]);
      r.html == s.html
      && (r.imageAlt == s.imageAlt || r.imageAlt == None || r.imageAlt == Some("")
          || (s.imageAlt.Some? && r.imageAlt == Some(s.imageAlt.value + t)))
      && (r.imageSrc == s.imageSrc || r.imageSrc == None || r.imageSrc == Some("")
          || (s.imageSrc.Some? && r.imageSrc == Some(s.imageSrc.value + t)))
      && (r.line == s.line
          || (s.imageSrc.Some? && (src == s.imageSrc.value || src == s.imageSrc.value + t)
              && r.line == s.line + ImageTag(src, TemplateValue(s.imageAlt))))
  {
    var c, t := md[i], Sanitize(md[i]);
    var lastIsParen := At(md, i + 1) == Some(')') && i + 1 == |md| - 1;
    src := "";
    if c == '!' && At(md, i + 1) == Some('[') {
    } else if c == ']' && At(md, i + 1) == Some('(') && s.imageAlt.Some? {
    } else if c == '[' && At(md, i - 1) == Some('!') && s.imageAlt.None? && s.imageSrc.None? {
    } else if c == '(' && At(md, i - 1) == Some(']') && s.imageAlt.Some? {
    } else if (c == ')' || lastIsParen) && s.imageSrc.Some? {
      src := if lastIsParen then s.imageSrc.value + t else s.imageSrc.value;
    } else if s.imageAlt.Some? && s.imageSrc.None? && !(c == ']' && At(md, i + 1) == Some('(')) {
    } else if s.imageSrc.Some? {
    } else {
    }
  }

  lemma AsterisksShape(md: string, i: nat, s: Scan) returns (t: string)
    requires i < |md|
    ensures var r := Asterisks(md, i, s);
      r.html == s.html && r.imageAlt == s.imageAlt && r.imageSrc == s.imageSrc && r.line == s.line + t
    ensures t == "" || t == "<i>" || t == "<b>" || t == "</i>" || t == "</b>" || t == Sanitize(md[i])
  {
    var c := md[i];
    if c == '*' && s.asteriskNum < 2 && !s.flags.inAsterisk {
      var n := s.asteriskNum + 1;
      if n == 1 && At(md, i + 1) != Some('*') {
        t := "<i>";
      } else if n == 2 {
        t := "<b>";
      } else {
        t := "";
      }
    } else if c == '*' && s.flags.inAsterisk {
      var out := s.asteriskOutNum + 1;
      if out == s.asteriskNum {
        t := if s.asteriskNum == 1 then "</i>" else if s.asteriskNum == 2 then "</b>" else "";
      } else if out == 1 && At(md, i + 1) == Some('*') {
        t := "";
      } else {
        t := Sanitize(c);
      }
    } else {
      t := Sanitize(c);
    }
  }

  lemma FlushImageShape(s: Scan) returns (p: string)
    requires s.imageAlt.Some?
    ensures var r := FlushImage(s);
      r.html == s.html && r.imageAlt == None && r.imageSrc == None
      && (p == s.line || p == "<p>" + s.line)
      && (r.line == p + "![" + s.imageAlt.value
          || (s.imageSrc.Some? && r.line == p + "![" + s.imageAlt.value + "](" + s.imageSrc.value))
  {
    p := if StartsWith(s.line, "<p>") then s.line else "<p>" + s.line;
  }

  lemma LastCharacterShape(md: string, i: nat, s: Scan) returns (l1: string, l2: string)
    requires i < |md|
    ensures var r := LastCharacter(md, i, s);
      r.html == s.html && r.imageAlt == s.imageAlt && r.imageSrc == s.imageSrc
      && (l1 == s.line || l1 == s.line + "</code>" || l1 == "<p>")
      && (l2 == l1 || l2 == l1 + "</b>" || l2 == l1 + "</i>")
      && (r.line == l2 || r.line == l2 + Sanitize(md[i]))
  {
    var c := md[i];
    var closeCode := s.flags.inCode && c == '`';
    var line := if closeCode then s.line + "</code>" else s.line;
    l1 := if At(md, i - 1) == Some('\n') then "<p>" else line;
    var closeBold := s.flags.inAsterisk && c == '*' && s.asteriskNum == 2 && At(md, i - 1) == Some('*');
    var closeItalic := s.flags.inAsterisk && c == '*' && !closeBold && s.asteriskNum == 1;
    l2 := if closeBold then l1 + "</b>" else if closeItalic then l1 + "</i>" else l1;
  }

  lemma AppendLineShape(s: Scan)
    ensures var r := AppendLine(s);
      r.line == "" && r.imageAlt == s.imageAlt && r.imageSrc == s.imageSrc
      && (r.html == s.html + s.line + "</p>\n" || r.html == s.html + s.line)
  {
  }

  lemma CloseLineShape(md: string, i: nat, s: Scan)
    requires i < |md|
    ensures var r, h := CloseLine(md, i, s), s.html + HeadingCloseTag(s.headingLevel) + "\n";
      r.line == s.line && r.imageAlt == s.imageAlt && r.imageSrc == s.imageSrc
      && (r.html == s.html || r.html == s.html + "\n" || r.html == Trim(s.html) || r.html == h || r.html == Trim(h))
  {
  }

  // The invariant, phase by phase.

  lemma SafeHeadingRun(md: string, i: nat, s: Scan)
    requires i < |md| && Safe(s)
    ensures Safe(HeadingRun(md, i, s).s)
  {
    var t := HeadingRunShape(md, i, s);
    CleanHeadingOpen(s.headingLevel, s.headerNum);
    CleanMarks('#', s.headingLevel);
    CleanConcat(s.line, t);
  }

  lemma SafeRuleRun(md: string, i: nat, s: Scan)
    requires i < |md| && Safe(s)
    ensures Safe(RuleRun(md, i, s).s)
  {
    RuleRunShape(md, i, s);
    CleanTagHr();
    CleanMarks('-', s.horizontalNum);
    CleanMarks('-', s.horizontalNum + 1);
  }

  lemma SafeImageSyntax(md: string, i: nat, s: Scan)
    requires i < |md| && Safe(s)
    ensures Safe(ImageSyntax(md, i, s).s)
  {
    var src := ImageSyntaxShape(md, i, s);
    var t := Sanitize(md[i]);
    CleanSanitize(md[i]);
    if s.imageAlt.Some? {
      NoAnglesConcat(s.imageAlt.value, t);
    }
    if s.imageSrc.Some? {
      NoAnglesConcat(s.imageSrc.value, t);
      if src == s.imageSrc.value || src == s.imageSrc.value + t {
        assert NoAngles(TemplateValue(s.imageAlt));
        CleanImageTag(src, TemplateValue(s.imageAlt));
        CleanConcat(s.line, ImageTag(src, TemplateValue(s.imageAlt)));
      }
    }
  }

  lemma SafeAsterisks(md: string, i: nat, s: Scan)
    requires i < |md| && Safe(s)
    ensures Safe(Asterisks(md, i, s))
  {
    var t := AsterisksShape(md, i, s);
    CleanTagI();
    CleanTagB();
    CleanTagClosingI();
    CleanTagClosingB();
    CleanSanitize(md[i]);
    CleanConcat(s.line, t);
  }

  lemma SafeEmphasis(md: string, i: nat, s: Scan)
    requires i < |md| && Safe(s)
    ensures Safe(Emphasis(md, i, s))
  {
    CleanTagP();
    CleanConcat(s.line, "<p>");
    SafeAsterisks(md, i, ParagraphStart(md, i, s));
  }

  lemma SafeConstructs(md: string, i: nat, s: Scan)
    requires i < |md| && Safe(s)
    ensures Safe(Constructs(md, i, s))
  {
    SafeHeadingRun(md, i, s);
    var s1 := HeadingRun(md, i, s).s;
    SafeRuleRun(md, i, s1);
    var s2 := RuleRun(md, i, s1).s;
    SafeImageSyntax(md, i, s2);
    SafeEmphasis(md, i, ImageSyntax(md, i, s2).s);
  }

  lemma CleanImageMarks()
    ensures Clean("![") && Clean("](")
  {
    CleanText("![");
    CleanText("](");
  }

  lemma SafeFlushImage(s: Scan)
    requires s.imageAlt.Some? && Safe(s)
    ensures Safe(FlushImage(s))
  {
    var p := FlushImageShape(s);
    CleanTagP();
    CleanConcat("<p>", s.line);
    CleanImageMarks();
    CleanConcat(p, "![");
    CleanText(s.imageAlt.value);
    CleanConcat(p + "![", s.imageAlt.value);
    if s.imageSrc.Some? {
      CleanConcat(p + "![" + s.imageAlt.value, "](");
      CleanText(s.imageSrc.value);
      CleanConcat(p + "![" + s.imageAlt.value + "](", s.imageSrc.value);
    }
  }

  lemma SafeLastCharacter(md: string, i: nat, s: Scan)
    requires i < |md| && Safe(s)
    ensures Safe(LastCharacter(md, i, s))
  {
    var l1, l2 := LastCharacterShape(md, i, s);
    CleanTagP();
    CleanTagClosingCode();
    CleanTagClosingB();
    CleanTagClosingI();
    CleanSanitize(md[i]);
    CleanConcat(s.line, "</code>");
    CleanConcat(l1, "</b>");
    CleanConcat(l1, "</i>");
    CleanConcat(l2, Sanitize(md[i]));
  }

  lemma SafeAppendLine(s: Scan)
    requires Safe(s)
    ensures Safe(AppendLine(s))
  {
    AppendLineShape(s);
    CleanParagraphEnd();
    CleanConcat(s.html, s.line);
    CleanConcat(s.html + s.line, "</p>\n");
  }

  lemma SafeCloseLine(md: string, i: nat, s: Scan)
    requires i < |md| && Safe(s)
    ensures Safe(CloseLine(md, i, s))
  {
    CloseLineShape(md, i, s);
    var h := s.html + HeadingCloseTag(s.headingLevel) + "\n";
    CleanText("\n");
    CleanConcat(s.html, "\n");
    CleanHeadingClose(s.headingLevel);
    CleanConcat3(s.html, HeadingCloseTag(s.headingLevel), "\n");
    CleanTrim(s.html);
    CleanTrim(h);
  }

  lemma SafeEndOfLine(md: string, i: nat, s: Scan)
    requires i < |md| && Safe(s)
    ensures Safe(EndOfLine(md, i, s))
  {
    var s1 := s.(flags := s.flags.(isFirstLine := false));
    var s2 := s1;
    if s1.imageAlt.Some? {
      SafeFlushImage(s1);
      s2 := FlushImage(s1);
    }
    var s3 := s2;
    if i == |md| - 1 && md[i] != '\n' {
      SafeLastCharacter(md, i, s2);
      s3 := LastCharacter(md, i, s2);
    }
    SafeAppendLine(s3);
    SafeCloseLine(md, i, AppendLine(s3));
    assert EndOfLine(md, i, s) == CloseLine(md, i, AppendLine(s3));
  }

  /** The code handler writes only its own tags and sanitized characters. */
  lemma SafeCode(md: string, i: nat, s: Scan)
    requires i < |md| && Safe(s)
    ensures Safe(Code(md, i, s).s)
  {
    var c := md[i];
    if c == '`' && !s.flags.inCode {
      CleanTagCode();
      CleanConcat(s.line, "<code>");
    } else if c == '`' {
      CleanTagClosingCode();
      CleanConcat(s.line, "</code>");
    } else if s.flags.inCode {
      CleanSanitize(c);
      CleanConcat(s.line, Sanitize(c));
    }
  }

  lemma SafeUnescaped(md: string, i: nat, s: Scan)
    requires i < |md| && Safe(s)
    ensures Safe(Unescaped(md, i, s))
  {
    var c := md[i];
    if c == '\\' && At(md, i + 1) != Some('\n') {
      CleanTagP();
      CleanConcat(s.line, "<p>");
    } else if c == '\n' || i == |md| - 1 {
      SafeEndOfLine(md, i, s);
    } else {
      SafeCode(md, i, s);
      SafeConstructs(md, i, Code(md, i, s).s);
    }
  }

  /** One iteration keeps both buffers clean and the image parts free of angle brackets. */
  lemma SafeStep(md: string, i: nat, s: Scan)
    requires i < |md| && Safe(s)
    ensures Safe(Step(md, i, s))
  {
    if s.flags.backslashed && i != |md| - 1 {
      CleanSanitize(md[i]);
      CleanConcat(s.line, Sanitize(md[i]));
    } else {
      SafeUnescaped(md, i, s.(flags := s.flags.(backslashed := false)));
    }
  }

  /** `SafeStep` for a state already named: keeps the loop below cheap. */
  lemma SafeNext(md: string, i: nat, t: Scan, u: Scan)
    requires i < |md| && Safe(t) && u == Step(md, i, t)
    ensures Safe(u)
  {
    SafeStep(md, i, t);
  }

  /** Safety holds after every part of the input. */
  lemma SafeRun(md: string, lo: nat, hi: nat, s: Scan)
    requires lo <= hi <= |md| && Safe(s)
    ensures Safe(Run(md, lo, hi, s))
  {
    var t := s;
    var i := lo;
    while i < hi
      invariant lo <= i <= hi
      invariant t == Run(md, lo, i, s) && Safe(t)
    {
      SafeNext(md, i, t, Step(md, i, t));
      t := Step(md, i, t);
      i := i + 1;
    }
  }

  /** Whatever the input, the output of `parse_md_to_html` is clean: every `<` and
      `>` in it opens or closes a tag of one of the forms the scanner writes. */
  lemma ParseIsClean(md: string)
    ensures Clean(Parse(md))
  {
    SafeRun(md, 0, |md|, Initial);
    CleanTrim("");
  }
}
