/** Behaviour of the scanner that holds for every input and every state, including
    the places where it departs from what Markdown readers expect: code spans that
    never end, emphasis that runs on over newlines, a seventh `#`, a last line lost
    after a trailing backslash. */
module MakotoQuirks {
  import opened JsStrings
  import opened Makoto
  import MakotoTrace

  // Code spans.

  /** Inside a code span every character is taken by the code handler. */
  lemma CodeTakesAll(md: string, i: nat, s: Scan)
    requires i < |md| && s.flags.inCode
    ensures Code(md, i, s).Consumed? && Code(md, i, s).s.flags.inCode
  {
  }

  lemma FlushImageKeepsFlags(s: Scan)
    requires s.imageAlt.Some?
    ensures FlushImage(s).flags == s.flags && FlushImage(s).asteriskNum == s.asteriskNum
    ensures FlushImage(s).headingLevel == s.headingLevel
  {
  }

  lemma LastCharacterKeepsCode(md: string, i: nat, s: Scan)
    requires i < |md|
    ensures LastCharacter(md, i, s).flags.inCode == s.flags.inCode
    ensures LastCharacter(md, i, s).headingLevel == s.headingLevel
  {
  }

  lemma CloseLineKeepsCode(md: string, i: nat, s: Scan)
    requires i < |md|
    ensures CloseLine(md, i, s).flags.inCode == s.flags.inCode
    ensures CloseLine(md, i, s).flags.inAsterisk == s.flags.inAsterisk
    ensures CloseLine(md, i, s).asteriskNum == s.asteriskNum
    ensures CloseLine(md, i, s).headingLevel <= s.headingLevel
  {
  }

  /** The end of a line leaves the code-span flag as it found it. */
  lemma EndOfLineKeepsCode(md: string, i: nat, s: Scan)
    requires i < |md|
    ensures EndOfLine(md, i, s).flags.inCode == s.flags.inCode
  {
    var s1 := s.(flags := s.flags.(isFirstLine := false));
    var s2 := if s1.imageAlt.Some? then FlushImage(s1) else s1;
    if s1.imageAlt.Some? {
      FlushImageKeepsFlags(s1);
    }
    var s3 := if i == |md| - 1 && md[i] != '\n' then LastCharacter(md, i, s2) else s2;
    LastCharacterKeepsCode(md, i, s2);
    CloseLineKeepsCode(md, i, AppendLine(s3));
  }

  /** Once a code span is open, no character closes it: the source sets the flag and
      never clears it. */
  lemma StepKeepsCode(md: string, i: nat, s: Scan)
    requires i < |md| && s.flags.inCode
    ensures Step(md, i, s).flags.inCode
  {
    var u := s.(flags := s.flags.(backslashed := false));
    if !(s.flags.backslashed && i != |md| - 1) {
      var c := md[i];
      if c == '\\' && At(md, i + 1) != Some('\n') {
      } else if c == '\n' || i == |md| - 1 {
        EndOfLineKeepsCode(md, i, u);
      } else {
        CodeTakesAll(md, i, u);
      }
    }
  }

  /** One more character read inside a code span, along the loop's states. */
  lemma TraceKeepsCode(md: string, tr: seq<Scan>, q: nat)
    requires MakotoTrace.IsTrace(md, tr) && 0 < q <= |md| && tr[q - 1].flags.inCode
    ensures tr[q].flags.inCode
  {
    StepKeepsCode(md, q - 1, tr[q - 1]);
  }

  /** `in_code` never clears: once the loop is inside a code span, every later iteration
      is too, across any number of lines and backticks. */
  lemma {:induction false} InCodeNeverClears(md: string, tr: seq<Scan>, p: nat, q: nat)
    requires MakotoTrace.IsTrace(md, tr) && p <= q <= |md| && tr[p].flags.inCode
    ensures tr[q].flags.inCode
    decreases q
  {
    if q > p {
      InCodeNeverClears(md, tr, p, q - 1);
      TraceKeepsCode(md, tr, q);
    }
  }

  /** Inside a code span a character other than a backtick, a backslash or a newline is
      copied (sanitized) and nothing else happens: `*`, `#`, `-`, `!`, `[` are not read as marks. */
  lemma CodeCopiesLiterally(md: string, i: nat, s: Scan)
    requires i < |md| - 1 && s.flags.inCode && !s.flags.backslashed
    requires md[i] != '`' && md[i] != '\\' && md[i] != '\n'
    ensures Step(md, i, s) == s.(line := s.line + Sanitize(md[i]))
  {
    assert s.(flags := s.flags.(backslashed := false)) == s;
  }

  /** Inside a code span every backtick writes `</code>`, the first one and any later one. */
  lemma BacktickInCode(md: string, i: nat, s: Scan)
    requires i < |md| - 1 && s.flags.inCode && !s.flags.backslashed && md[i] == '`'
    ensures Step(md, i, s) == s.(line := s.line + "</code>")
  {
    assert s.(flags := s.flags.(backslashed := false)) == s;
  }

  /** Outside a code span, a backtick opens one exactly when the lookahead finds the
      closing backtick; otherwise it goes on to the other handlers as a plain character. */
  lemma BacktickOpens(md: string, i: nat, s: Scan)
    requires i < |md| - 1 && !s.flags.inCode && !s.flags.backslashed && md[i] == '`'
    ensures Step(md, i, s).flags.inCode <==> CodeSpanCloses(md, i)
    ensures CodeSpanCloses(md, i) ==> Step(md, i, s) == s.(flags := s.flags.(inCode := true), line := s.line + "<code>")
    ensures !CodeSpanCloses(md, i) ==> Step(md, i, s) == Constructs(md, i, s)
  {
    assert s.(flags := s.flags.(backslashed := false)) == s;
    if !CodeSpanCloses(md, i) {
      ConstructsKeepCode(md, i, s);
    }
  }

  lemma HeadingMarkKeepsCode(c: char, s: Scan)
    ensures HeadingMark(c, s).s.flags.inCode == s.flags.inCode
    ensures s.headingLevel <= 7 ==> HeadingMark(c, s).s.headingLevel <= 7
  {
  }

  lemma RuleMarkKeepsCode(md: string, i: nat, s: Scan)
    requires i < |md|
    ensures RuleMark(md, i, s).s.flags.inCode == s.flags.inCode
    ensures RuleMark(md, i, s).s.headingLevel == s.headingLevel
  {
  }

  lemma ImageSyntaxKeepsCode(md: string, i: nat, s: Scan)
    requires i < |md|
    ensures ImageSyntax(md, i, s).s.flags.inCode == s.flags.inCode
    ensures ImageSyntax(md, i, s).s.headingLevel == s.headingLevel
  {
  }

  lemma OpeningKeepsCode(md: string, i: nat, s: Scan)
    ensures OpeningAsterisk(md, i, s).flags.inCode == s.flags.inCode
    ensures OpeningAsterisk(md, i, s).headingLevel == s.headingLevel
  {
  }

  lemma ClosingKeepsCode(md: string, i: nat, s: Scan)
    requires i < |md|
    ensures ClosingAsterisk(md, i, s).flags.inCode == s.flags.inCode
    ensures ClosingAsterisk(md, i, s).headingLevel == s.headingLevel
  {
  }

  lemma EmphasisKeepsCode(md: string, i: nat, s: Scan)
    requires i < |md|
    ensures Emphasis(md, i, s).flags.inCode == s.flags.inCode
    ensures Emphasis(md, i, s).headingLevel == s.headingLevel
  {
    var p := ParagraphStart(md, i, s);
    assert p.flags == s.flags && p.headingLevel == s.headingLevel;
    OpeningKeepsCode(md, i, p);
    ClosingKeepsCode(md, i, p);
  }

  /** The handlers after the code handler leave the code-span flag alone, and count at
      most seven `#`s. */
  lemma ConstructsKeepCode(md: string, i: nat, s: Scan)
    requires i < |md|
    ensures Constructs(md, i, s).flags.inCode == s.flags.inCode
    ensures s.headingLevel <= 7 ==> Constructs(md, i, s).headingLevel <= 7
  {
    var o1 := HeadingRun(md, i, s);
    HeadingMarkKeepsCode(md[i], s);
    if o1.Passed? {
      var o2 := RuleRun(md, i, o1.s);
      RuleMarkKeepsCode(md, i, o1.s);
      if o2.Passed? {
        ImageSyntaxKeepsCode(md, i, o2.s);
        EmphasisKeepsCode(md, i, ImageSyntax(md, i, o2.s).s);
      }
    }
  }

  /** The lookahead on input with no backslash after `k`: it succeeds exactly when a
      backtick comes before any newline. */
  lemma {:induction false} CloseFromPlain(md: string, k: nat)
    requires forall m :: k <= m < |md| ==> md[m] != '\\'
    ensures CloseFrom(md, k, false) <==>
      exists j :: k <= j < |md| && md[j] == '`' && forall m :: k <= m < j ==> md[m] != '\n'
    decreases |md| - k
  {
    if k < |md| && md[k] != '\n' && md[k] != '`' {
      CloseFromPlain(md, k + 1);
      if CloseFrom(md, k + 1, false) {
        var j :| k + 1 <= j < |md| && md[j] == '`' && forall m :: k + 1 <= m < j ==> md[m] != '\n';
        assert forall m :: k <= m < j ==> md[m] != '\n';
      } else {
        forall j | k <= j < |md| && md[j] == '`'
          ensures exists m :: k <= m < j && md[m] == '\n'
        {
          assert j != k;
        }
      }
    } else if k < |md| && md[k] == '\n' {
      forall j | k <= j < |md| && md[j] == '`'
        ensures exists m :: k <= m < j && md[m] == '\n'
      {
        assert md[k] == '\n';
      }
    } else if k < |md| {
      assert md[k] == '`';
    }
  }

  /** A backslash makes the lookahead skip the next character, whatever it is: an escaped
      backtick does not close the span, and an escaped newline does not stop the search. */
  lemma CloseFromEscape(md: string, k: nat)
    requires k + 1 < |md| && md[k] == '\\'
    ensures CloseFrom(md, k, false) == CloseFrom(md, k + 2, false)
  {
  }

  // Emphasis.

  /** A newline does not end an italic or a bold: `in_asterisk` and the opening run
      are carried into the next line. */
  lemma NewlineKeepsEmphasis(md: string, i: nat, s: Scan)
    requires i < |md| && md[i] == '\n'
    ensures Step(md, i, s).flags.inAsterisk == s.flags.inAsterisk
    ensures Step(md, i, s).asteriskNum == s.asteriskNum
  {
    if !(s.flags.backslashed && i != |md| - 1) {
      EndOfLineKeepsEmphasis(md, i, s.(flags := s.flags.(backslashed := false)));
    }
  }

  lemma EndOfLineKeepsEmphasis(md: string, i: nat, s: Scan)
    requires i < |md| && md[i] == '\n'
    ensures EndOfLine(md, i, s).flags.inAsterisk == s.flags.inAsterisk
    ensures EndOfLine(md, i, s).asteriskNum == s.asteriskNum
  {
    var s1 := s.(flags := s.flags.(isFirstLine := false));
    var s2 := if s1.imageAlt.Some? then FlushImage(s1) else s1;
    if s1.imageAlt.Some? {
      FlushImageKeepsFlags(s1);
    }
    CloseLineKeepsCode(md, i, AppendLine(s2));
  }

  // Headings.

  lemma EndOfLineBoundsHeading(md: string, i: nat, s: Scan)
    requires i < |md|
    ensures EndOfLine(md, i, s).headingLevel <= s.headingLevel
  {
    var s1 := s.(flags := s.flags.(isFirstLine := false));
    var s2 := if s1.imageAlt.Some? then FlushImage(s1) else s1;
    if s1.imageAlt.Some? {
      FlushImageKeepsFlags(s1);
    }
    var s3 := if i == |md| - 1 && md[i] != '\n' then LastCharacter(md, i, s2) else s2;
    LastCharacterKeepsCode(md, i, s2);
    CloseLineKeepsCode(md, i, AppendLine(s3));
  }

  /** The guard `heading_level <= 6` lets a seventh `#` be counted, and no more. */
  lemma StepBoundsHeading(md: string, i: nat, s: Scan)
    requires i < |md| && s.headingLevel <= 7
    ensures Step(md, i, s).headingLevel <= 7
  {
    if !(s.flags.backslashed && i != |md| - 1) {
      UnescapedBoundsHeading(md, i, s.(flags := s.flags.(backslashed := false)));
    }
  }

  lemma UnescapedBoundsHeading(md: string, i: nat, s: Scan)
    requires i < |md| && s.headingLevel <= 7
    ensures Unescaped(md, i, s).headingLevel <= 7
  {
    var c := md[i];
    if c == '\\' && At(md, i + 1) != Some('\n') {
    } else if c == '\n' || i == |md| - 1 {
      EndOfLineBoundsHeading(md, i, s);
    } else {
      CodeKeepsHeading(md, i, s);
      if Code(md, i, s).Passed? {
        ConstructsKeepCode(md, i, s);
      }
    }
  }

  lemma CodeKeepsHeading(md: string, i: nat, s: Scan)
    requires i < |md|
    ensures Code(md, i, s).s.headingLevel == s.headingLevel
    ensures Code(md, i, s).Passed? ==> Code(md, i, s).s == s
  {
  }

  lemma RunBoundsHeading(md: string, hi: nat)
    requires 0 < hi <= |md| && Run(md, 0, hi - 1, Initial).headingLevel <= 7
    ensures Run(md, 0, hi, Initial).headingLevel <= 7
  {
    StepBoundsHeading(md, hi - 1, Run(md, 0, hi - 1, Initial));
  }

  /** The `#` count never exceeds seven. */
  lemma {:induction false} HeadingLevelBounded(md: string, hi: nat)
    requires hi <= |md|
    ensures Run(md, 0, hi, Initial).headingLevel <= 7
    decreases hi
  {
    if hi > 0 {
      HeadingLevelBounded(md, hi - 1);
      RunBoundsHeading(md, hi);
    }
  }

  /** A `#` that continues a run at the start of a line is counted while fewer than seven
      have been; the eighth ends the run, which is written out as text. */
  lemma HashCounted(s: Scan)
    requires !s.flags.inHeading
    ensures HeadingMark('#', s).Consumed? <==> s.headingLevel <= 6
    ensures s.headingLevel <= 6 ==> HeadingMark('#', s).s == s.(headingLevel := s.headingLevel + 1)
    ensures s.headingLevel == 7 ==>
      HeadingMark('#', s) == Passed(s.(line := s.line + "<p>" + Repeat('#', 7), headingLevel := 0))
  {
  }

  /** After a run of `#`s a space opens a heading with the next id, and any other
      character turns the run into `<p>` and the same number of `#`s. */
  lemma HashRunEnds(c: char, s: Scan)
    requires !s.flags.inHeading && s.headingLevel > 0 && c != '#'
    ensures c == ' ' ==>
      && HeadingMark(c, s).Consumed?
      && HeadingMark(c, s).s.line == s.line + "<h" + NatToString(s.headingLevel) + " id='header-" + NatToString(s.headerNum) + "'>"
      && HeadingMark(c, s).s.headerNum == s.headerNum + 1 && HeadingMark(c, s).s.flags.inHeading
    ensures c != ' ' ==> HeadingMark(c, s) == Passed(s.(line := s.line + "<p>" + Repeat('#', s.headingLevel), headingLevel := 0))
  {
  }

  // Rules.

  /** A `-` that continues a run at the start of a line: the third makes the line `<hr>`,
      and so does the second when one more `-` ends the input; one or two followed by a
      newline give `<p>` and the dashes; later ones add nothing. */
  lemma DashCounted(md: string, i: nat, s: Scan)
    requires i < |md| && md[i] == '-'
    ensures RuleMark(md, i, s).Consumed? && RuleMark(md, i, s).s.horizontalNum == s.horizontalNum + 1
    ensures s.horizontalNum == 2 ==> RuleMark(md, i, s).s.line == "<hr>" && RuleMark(md, i, s).s.flags.horizontalRule
    ensures s.horizontalNum == 1 && i == |md| - 2 && md[i + 1] == '-' ==>
      RuleMark(md, i, s).s.line == "<hr>" && RuleMark(md, i, s).s.flags.horizontalRule
    ensures s.horizontalNum < 2 && i + 1 < |md| && md[i + 1] == '\n' ==>
      RuleMark(md, i, s).s.line == "<p>" + Repeat('-', s.horizontalNum + 1)
    ensures s.horizontalNum >= 3 ==> RuleMark(md, i, s).s == s.(horizontalNum := s.horizontalNum + 1)
  {
  }

  /** A run of one or two `-`s followed by another character is written out as text. */
  lemma DashRunEnds(md: string, i: nat, s: Scan)
    requires i < |md| && md[i] != '-' && s.horizontalNum > 0
    ensures RuleMark(md, i, s) == Passed(s.(line := "<p>" + Repeat('-', s.horizontalNum)))
  {
  }

  // Escapes.

  /** A backslash not followed by a newline writes nothing (but the `<p>` of a line it
      starts) and marks the next character as escaped. */
  lemma BackslashDropped(md: string, i: nat, s: Scan)
    requires i < |md| && md[i] == '\\' && !s.flags.backslashed && At(md, i + 1) != Some('\n')
    ensures Step(md, i, s).html == s.html && Step(md, i, s).flags.backslashed
    ensures Step(md, i, s).line == if i == 0 || md[i - 1] == '\n' then s.line + "<p>" else s.line
  {
  }

  /** A backslash inside a line, followed by the character it escapes, adds only that
      character to the line and leaves every count as it was. Neither step reaches the
      `#` and `-` handlers, so a counted run that the backslash follows is never written:
      the count is cleared at the end of the line with nothing output for it
      (`MakotoTraceExamples.EscapedDashLost`). */
  lemma EscapeAfterRun(md: string, i: nat, s: Scan)
    requires 0 < i < |md| - 2 && md[i] == '\\' && md[i - 1] != '\n' && md[i + 1] != '\n'
    requires !s.flags.backslashed
    ensures Step(md, i + 1, Step(md, i, s)) == s.(line := s.line + Sanitize(md[i + 1]))
  {
  }

  /** An escaped character that is not the last of the input is copied as it is, whatever
      it is: a `*`, a `#` or a backtick has no effect. */
  lemma EscapedCopied(md: string, i: nat, s: Scan)
    requires i < |md| - 1 && s.flags.backslashed
    ensures Step(md, i, s) == s.(flags := s.flags.(backslashed := false), line := s.line + Sanitize(md[i]))
  {
  }

  // Images and rules at the end of a line.

  /** A line that ends just after an image or a rule closes neither a heading nor its
      level: the `</hN>` of a heading that holds the image is written when a later line
      ends. */
  lemma ImageLineKeepsHeading(md: string, i: nat, s: Scan)
    requires i < |md| && (s.flags.wasImage || s.flags.horizontalRule)
    ensures var r := CloseLine(md, i, s);
      r.flags.inHeading == s.flags.inHeading && r.headingLevel == s.headingLevel
      && !r.flags.wasImage && !r.flags.horizontalRule && r.line == s.line
  {
  }

  /** A character that is no part of an image syntax clears the mark an image left, so a
      heading with more text after its image is closed with its line. */
  lemma OrdinaryClearsImage(md: string, i: nat, s: Scan)
    requires i < |md| && ImageSyntax(md, i, s).Passed?
    ensures !ImageSyntax(md, i, s).s.flags.wasImage
    ensures ImageSyntax(md, i, s).s.flags.inHeading == s.flags.inHeading
  {
  }

  /** The last character of the input is handled as if it were not escaped. */
  lemma EscapedLastUnescaped(md: string, s: Scan)
    requires md != [] && s.flags.backslashed
    ensures Step(md, |md| - 1, s) == Step(md, |md| - 1, s.(flags := s.flags.(backslashed := false)))
  {
  }

  lemma LastCharacterClosesItalic(md: string, i: nat, s: Scan)
    requires i < |md| && md[i] == '*' && s.flags.inAsterisk && s.asteriskNum == 1
    ensures !LastCharacter(md, i, s).flags.inAsterisk
  {
  }

  /** When a newline precedes it, the last character of the input starts its line
      afresh: whatever the line held is replaced by `<p>`. The character is then
      written, or closes an italic, or is dropped after a rule, a closing backtick or
      an image's `)`, leaving the line just `<p>`; a bold cannot close, since no `*`
      precedes it, and its `*` is written. A closing backtick's `</code>` goes with the
      rest of the line, so the input ``"`x`\n`"`` ends with an empty paragraph. */
  lemma LastCharacterAfterNewline(md: string, i: nat, s: Scan)
    requires i < |md| && At(md, i - 1) == Some('\n')
    ensures var r := LastCharacter(md, i, s);
      r.html == s.html && |r.line| >= 3 && r.line[..3] == "<p>"
    ensures var r := LastCharacter(md, i, s);
      !(s.flags.inAsterisk && md[i] == '*') && !(s.flags.inCode && md[i] == '`')
      && !s.flags.horizontalRule && !(s.flags.wasImage && md[i] == ')')
      ==> r.line == "<p>" + Sanitize(md[i])
    ensures var r := LastCharacter(md, i, s);
      s.flags.inAsterisk && md[i] == '*' && s.asteriskNum == 1
      ==> r.line == "<p></i>" && !r.flags.inAsterisk
    ensures s.flags.inAsterisk && s.asteriskNum == 2 ==> LastCharacter(md, i, s).flags.inAsterisk
    ensures (s.flags.horizontalRule || (s.flags.inCode && md[i] == '`') || (s.flags.wasImage && md[i] == ')'))
      && !(s.flags.inAsterisk && md[i] == '*')
      ==> LastCharacter(md, i, s).line == "<p>"
    ensures s.flags.inAsterisk && s.asteriskNum == 2 && md[i] == '*'
      && !s.flags.horizontalRule && !s.flags.inCode
      ==> LastCharacter(md, i, s).line == "<p>*"
  {
  }

  /** So an escaped `*` that ends the input still closes an open italic. */
  lemma EscapedLastStarClosesItalic(md: string, s: Scan)
    requires md != [] && md[|md| - 1] == '*' && s.flags.backslashed && s.flags.inAsterisk && s.asteriskNum == 1
    ensures !Step(md, |md| - 1, s).flags.inAsterisk
  {
    var i := |md| - 1;
    var u := s.(flags := s.flags.(backslashed := false));
    var s1 := u.(flags := u.flags.(isFirstLine := false));
    var s2 := if s1.imageAlt.Some? then FlushImage(s1) else s1;
    if s1.imageAlt.Some? {
      FlushImageKeepsFlags(s1);
    }
    LastCharacterClosesItalic(md, i, s2);
    CloseLineKeepsCode(md, i, AppendLine(LastCharacter(md, i, s2)));
  }

  /** A backslash that ends the input adds nothing to the output, escaped or not. */
  lemma TrailingBackslashWritesNothing(md: string, s: Scan)
    requires md != [] && md[|md| - 1] == '\\'
    ensures Step(md, |md| - 1, s).html == s.html
  {
  }

  /** So when the input ends with a backslash its last line is never written and the
      output is not trimmed. */
  lemma LastLineLost(md: string)
    requires md != [] && md[|md| - 1] == '\\'
    ensures Parse(md) == Run(md, 0, |md| - 1, Initial).html
  {
    var t := Run(md, 0, |md| - 1, Initial);
    TrailingBackslashWritesNothing(md, t);
  }

  // Emphasis.

  /** Inside an emphasis a `*` closes it exactly when it completes a closing run as long
      as the opening one, and a lone `*` inside a bold is written as it is. */
  lemma ClosingStar(md: string, i: nat, s: Scan)
    requires i < |md| && md[i] == '*' && s.flags.inAsterisk
    ensures !Asterisks(md, i, s).flags.inAsterisk <==> s.asteriskOutNum + 1 == s.asteriskNum
    ensures s.asteriskNum == 1 && s.asteriskOutNum == 0 ==> Asterisks(md, i, s).line == s.line + "</i>"
    ensures s.asteriskNum == 2 && s.asteriskOutNum == 1 ==> Asterisks(md, i, s).line == s.line + "</b>"
    ensures s.asteriskNum == 2 && s.asteriskOutNum == 0 && At(md, i + 1) != Some('*') ==>
      Asterisks(md, i, s) == s.(asteriskOutNum := 1, line := s.line + "*")
  {
  }

  /** Inside an emphasis any other character is written and restarts the closing count. */
  lemma OtherResetsClosing(md: string, i: nat, s: Scan)
    requires i < |md| && md[i] != '*' && s.flags.inAsterisk
    ensures Asterisks(md, i, s) == s.(asteriskOutNum := 0, line := s.line + Sanitize(md[i]))
  {
  }

  /** Outside an emphasis, a `*` not followed by another opens an italic, and two open a bold. */
  lemma OpeningStar(md: string, i: nat, s: Scan)
    requires i < |md| && md[i] == '*' && !s.flags.inAsterisk
    ensures s.asteriskNum == 0 && At(md, i + 1) != Some('*') ==>
      Asterisks(md, i, s) == s.(asteriskNum := 1, line := s.line + "<i>", flags := s.flags.(inAsterisk := true))
    ensures s.asteriskNum == 0 && At(md, i + 1) == Some('*') ==> Asterisks(md, i, s) == s.(asteriskNum := 1)
    ensures s.asteriskNum == 1 ==>
      Asterisks(md, i, s) == s.(asteriskNum := 2, line := s.line + "<b>", flags := s.flags.(inAsterisk := true))
  {
  }

  // Images.

  lemma ParagraphPrefix(l: string, t: string)
    ensures StartsWith(l, "<p>") ==> StartsWith(l + t, "<p>")
    ensures StartsWith("<p>" + l + t, "<p>")
  {
    if StartsWith(l, "<p>") {
      assert (l + t)[..3] == l[..3];
    }
    assert ("<p>" + l + t)[..3] == "<p>";
  }

  /** The text an image still open at a newline is flushed as: the marks and the parts read so far. */
  function ImageSoFar(s: Scan): string
    requires s.imageAlt.Some?
  {
    "![" + s.imageAlt.value + (if s.imageSrc.Some? then "](" + s.imageSrc.value else "")
  }

  /** A newline that is not the last character and that no backslash escapes ends the line. */
  lemma NewlineStep(md: string, i: nat, s: Scan)
    requires i < |md| - 1 && md[i] == '\n' && !s.flags.backslashed
    ensures var u := s.(flags := s.flags.(isFirstLine := false));
      Step(md, i, s) == CloseLine(md, i, AppendLine(if u.imageAlt.Some? then FlushImage(u) else u))
  {
    assert s.(flags := s.flags.(backslashed := false)) == s;
  }

  /** Closing a line that holds no rule, image or heading before the end of the input
      changes nothing but the `#` count. */
  lemma PlainLineClose(md: string, i: nat, s: Scan)
    requires i < |md| - 1 && !s.flags.horizontalRule && !s.flags.wasImage && !s.flags.inHeading
    ensures CloseLine(md, i, s) == s.(headingLevel := 0)
  {
  }

  lemma FlushedImage(s: Scan)
    requires s.imageAlt.Some?
    ensures var f := FlushImage(s);
      f.line == (if StartsWith(s.line, "<p>") then s.line else "<p>" + s.line) + ImageSoFar(s)
      && StartsWith(f.line, "<p>") && f.html == s.html && f.flags == s.flags
      && f.imageAlt.None? && f.imageSrc.None?
  {
    ParagraphPrefix(s.line, ImageSoFar(s));
  }

  /** An image still open at a newline goes out as the literal text read so far, in a
      paragraph. */
  lemma NewlineFlushesImage(md: string, i: nat, s: Scan)
    requires i < |md| - 1 && md[i] == '\n' && !s.flags.backslashed && s.imageAlt.Some?
    requires !s.flags.horizontalRule && !s.flags.wasImage && !s.flags.inHeading
    ensures var r := Step(md, i, s);
      r.html == s.html + (if StartsWith(s.line, "<p>") then s.line else "<p>" + s.line) + ImageSoFar(s) + "</p>\n"
      && r.line == "" && r.imageAlt.None? && r.imageSrc.None?
  {
    var u := s.(flags := s.flags.(isFirstLine := false));
    var f := FlushImage(u);
    FlushedImage(u);
    NewlineStep(md, i, s);
    var a := AppendLine(f);
    assert a.html == s.html + f.line + "</p>\n";
    PlainLineClose(md, i, a);
  }
}
