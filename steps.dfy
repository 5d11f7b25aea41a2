/** What one pass of the loop does with one character, in the situations a
    well-formed line produces. Each lemma walks through one phase of the loop
    body (escapes, code, `#` and `-` runs, images, paragraph start, asterisks),
    so that a character's whole pass is a chain of small facts. */
module MakotoSteps {
  import opened JsStrings
  import opened Makoto
  import opened MakotoBlocks

  // Where a position is in its line.

  /** A run of `#`s or `-`s of the length the state records does not end just before `j`. */
  predicate Mid(md: string, j: nat, s: Scan)
  {
    !RunAnchored(md, j, s.headingLevel, '#', s.flags.isFirstLine)
    && !RunAnchored(md, j, s.horizontalNum, '-', s.flags.isFirstLine)
  }

  /** Position `j` is in the middle of a line that goes on after it, past the marks
      the state has counted at its start. */
  predicate Inside(md: string, j: nat, s: Scan)
  {
    0 < j && j + 1 < |md| && md[j] != '\n' && md[j - 1] != '\n'
    && s.headingLevel < j && md[j - s.headingLevel - 1] != '\n'
    && s.horizontalNum < j && md[j - s.horizontalNum - 1] != '\n'
  }

  /** A run of marks is not anchored at `j` when the character `n + 1` places back
      is no newline. */
  lemma NotAnchoredAt(md: string, j: nat, n: nat, mark: char, isFirstLine: bool)
    requires n < j <= |md| && md[j - n - 1] != '\n'
    ensures !RunAnchored(md, j, n, mark, isFirstLine)
  {
    SliceWithin(md, j - n - 1, j);
    assert Slice(md, j - n - 1, j)[0] == md[j - n - 1];
    SliceWithin(md, 0, j);
  }

  lemma InsideMid(md: string, j: nat, s: Scan)
    requires Inside(md, j, s)
    ensures Mid(md, j, s)
  {
    NotAnchoredAt(md, j, s.headingLevel, '#', s.flags.isFirstLine);
    NotAnchoredAt(md, j, s.horizontalNum, '-', s.flags.isFirstLine);
  }

  /** The `n` characters before `j` are `mark`s that start a line. */
  predicate Anchored(md: string, j: nat, n: nat, mark: char, isFirstLine: bool)
  {
    n <= j <= |md| && ((j == n && isFirstLine) || (n < j && md[j - n - 1] == '\n'))
    && forall k :: j - n <= k < j ==> md[k] == mark
  }

  /** Such a run is what the scanner's slice test accepts. */
  lemma AnchoredIs(md: string, j: nat, n: nat, mark: char, isFirstLine: bool)
    requires Anchored(md, j, n, mark, isFirstLine)
    ensures RunAnchored(md, j, n, mark, isFirstLine)
  {
    AnchoredRun(md, j - n, j, mark, isFirstLine);
  }

  /** A run of marks that starts a line is anchored at its end. */
  lemma AnchoredRun(md: string, p: nat, j: nat, mark: char, isFirstLine: bool)
    requires p <= j <= |md|
    requires (p == 0 && isFirstLine) || (0 < p && md[p - 1] == '\n')
    requires forall k :: p <= k < j ==> md[k] == mark
    ensures RunAnchored(md, j, j - p, mark, isFirstLine)
  {
    if 0 < p {
      SliceWithin(md, p - 1, j);
      assert Slice(md, p - 1, j) == "\n" + Repeat(mark, j - p);
    } else {
      SliceWithin(md, 0, j);
      assert Slice(md, 0, j) == Repeat(mark, j);
    }
  }

  /** Nothing escaped, no code, no image open. */
  predicate Idle(s: Scan)
  {
    !s.flags.backslashed && !s.flags.inCode && s.imageAlt.None? && s.imageSrc.None?
  }

  /** And no emphasis open either: the state between two spans. */
  predicate BetweenSpans(s: Scan)
  {
    Idle(s) && !s.flags.inAsterisk && s.asteriskNum == 0 && s.asteriskOutNum == 0
  }

  // Escapes, code and ends of lines.

  lemma Unescape(md: string, j: nat, s: Scan)
    requires j < |md| && !s.flags.backslashed
    ensures Step(md, j, s) == Unescaped(md, j, s)
  {
  }

  lemma ToConstructs(md: string, j: nat, s: Scan)
    requires j + 1 < |md| && md[j] != '\\' && md[j] != '\n' && md[j] != '`' && !s.flags.inCode
    ensures Unescaped(md, j, s) == Constructs(md, j, s)
  {
  }

  /** A backslash with something after it on the line escapes it; at the start of a line
      it opens the paragraph. */
  lemma EscapeOpens(md: string, j: nat, s: Scan)
    requires j + 1 < |md| && md[j] == '\\' && md[j + 1] != '\n' && !s.flags.backslashed
    ensures Step(md, j, s)
         == s.(flags := s.flags.(backslashed := true),
               line := if j == 0 || md[j - 1] == '\n' then s.line + "<p>" else s.line)
  {
  }

  /** An escaped character that does not end the input is copied. */
  lemma EscapedCharacter(md: string, j: nat, s: Scan)
    requires j + 1 < |md| && s.flags.backslashed
    ensures Step(md, j, s) == s.(flags := s.flags.(backslashed := false), line := s.line + Sanitize(md[j]))
  {
  }

  /** A newline outside an image flushes the line. */
  lemma NewlineStep(md: string, j: nat, s: Scan)
    requires j < |md| && md[j] == '\n' && !s.flags.backslashed && s.imageAlt.None?
    ensures Step(md, j, s) == CloseLine(md, j, AppendLine(s.(flags := s.flags.(isFirstLine := false))))
  {
  }

  // The `#` and `-` runs at the start of a line.

  /** No run is pending and the character is no mark. */
  lemma NoMarks(md: string, j: nat, s: Scan)
    requires j < |md| && s.headingLevel == 0 && s.horizontalNum == 0 && md[j] != '#' && md[j] != '-'
    ensures Constructs(md, j, s) == Inline(md, j, s)
  {
  }

  /** Past the runs. */
  lemma PastMarks(md: string, j: nat, s: Scan)
    requires j < |md| && Mid(md, j, s)
    ensures Constructs(md, j, s) == Inline(md, j, s)
  {
  }

  lemma HashMark(md: string, j: nat, s: Scan)
    requires j < |md| && Anchored(md, j, s.headingLevel, '#', s.flags.isFirstLine)
    requires md[j] == '#' && !s.flags.inHeading && s.headingLevel <= 6
    ensures Constructs(md, j, s) == s.(headingLevel := s.headingLevel + 1)
  {
    AnchoredIs(md, j, s.headingLevel, '#', s.flags.isFirstLine);
  }

  lemma HeadingSpace(md: string, j: nat, s: Scan)
    requires j < |md| && Anchored(md, j, s.headingLevel, '#', s.flags.isFirstLine)
    requires md[j] == ' ' && !s.flags.inHeading && s.headingLevel > 0
    ensures Constructs(md, j, s)
         == s.(flags := s.flags.(inHeading := true),
               line := s.line + HeadingOpenTag(s.headingLevel, s.headerNum),
               headerNum := s.headerNum + 1)
  {
    AnchoredIs(md, j, s.headingLevel, '#', s.flags.isFirstLine);
  }

  /** A run of `#`s followed by neither a space nor another `#` becomes text. */
  lemma EndOfHashes(md: string, j: nat, s: Scan)
    requires 0 < j < |md| && md[j - 1] != '\n'
    requires Anchored(md, j, s.headingLevel, '#', s.flags.isFirstLine)
    requires s.headingLevel > 0 && !s.flags.inHeading && s.horizontalNum == 0 && md[j] != '#' && md[j] != ' '
    ensures Constructs(md, j, s)
         == Inline(md, j, s.(line := s.line + "<p>" + Repeat('#', s.headingLevel), headingLevel := 0))
  {
    AnchoredIs(md, j, s.headingLevel, '#', s.flags.isFirstLine);
    NotAnchoredAt(md, j, 0, '-', s.flags.isFirstLine);
  }

  /** A `-` where the `-`s so far start the line is handled by the rule code alone. */
  lemma DashMark(md: string, j: nat, s: Scan)
    requires j < |md| && s.headingLevel == 0
    requires Anchored(md, j, s.horizontalNum, '-', s.flags.isFirstLine) && md[j] == '-'
    ensures RuleMark(md, j, s).Consumed? && Constructs(md, j, s) == RuleMark(md, j, s).s
  {
    AnchoredIs(md, j, s.horizontalNum, '-', s.flags.isFirstLine);
  }

  /** Before the third `-`, a run that goes on is only counted. */
  lemma DashRunning(md: string, j: nat, s: Scan)
    requires j + 2 < |md| && md[j] == '-' && s.horizontalNum + 1 < 3 && md[j + 1] != '\n'
    ensures RuleMark(md, j, s) == Consumed(s.(horizontalNum := s.horizontalNum + 1))
  {
  }

  /** One or two `-`s alone on their line become a paragraph at once. */
  lemma DashShort(md: string, j: nat, s: Scan)
    requires j + 1 < |md| && md[j] == '-' && s.horizontalNum + 1 < 3 && md[j + 1] == '\n'
    ensures RuleMark(md, j, s)
         == Consumed(s.(horizontalNum := s.horizontalNum + 1, line := "<p>" + Repeat('-', s.horizontalNum + 1)))
  {
  }

  /** The third `-` makes the rule. */
  lemma DashThird(md: string, j: nat, s: Scan)
    requires j < |md| && md[j] == '-' && s.horizontalNum == 2
    ensures RuleMark(md, j, s)
         == Consumed(s.(horizontalNum := 3, flags := s.flags.(horizontalRule := true), line := "<hr>"))
  {
  }

  /** Later ones are only counted. */
  lemma DashBeyond(md: string, j: nat, s: Scan)
    requires j < |md| && md[j] == '-' && s.horizontalNum >= 3
    ensures RuleMark(md, j, s) == Consumed(s.(horizontalNum := s.horizontalNum + 1))
  {
  }

  /** One or two `-`s followed by something else become text. */
  lemma EndOfDashes(md: string, j: nat, s: Scan)
    requires 0 < j < |md| && md[j - 1] != '\n' && s.headingLevel == 0
    requires Anchored(md, j, s.horizontalNum, '-', s.flags.isFirstLine)
    requires s.horizontalNum > 0 && md[j] != '-'
    ensures Constructs(md, j, s) == Inline(md, j, s.(line := "<p>" + Repeat('-', s.horizontalNum)))
  {
    AnchoredIs(md, j, s.horizontalNum, '-', s.flags.isFirstLine);
    NotAnchoredAt(md, j, 0, '#', s.flags.isFirstLine);
  }

  // Images.

  /** A character that takes no part in an image clears the image flag. */
  lemma InlineText(md: string, j: nat, s: Scan)
    requires j < |md| && s.imageAlt.None? && s.imageSrc.None?
    requires md[j] != '[' && !(md[j] == '!' && At(md, j + 1) == Some('['))
    ensures Inline(md, j, s) == Emphasis(md, j, s.(flags := s.flags.(wasImage := false)))
  {
  }

  lemma InlineBang(md: string, j: nat, s: Scan)
    requires j < |md| && md[j] == '!' && At(md, j + 1) == Some('[')
    ensures Inline(md, j, s) == s
  {
  }

  lemma InlineAltOpens(md: string, j: nat, s: Scan)
    requires j < |md| && md[j] == '[' && At(md, j - 1) == Some('!') && s.imageAlt.None? && s.imageSrc.None?
    ensures Inline(md, j, s) == s.(imageAlt := Some(""))
  {
  }

  lemma InlineAltCharacter(md: string, j: nat, s: Scan)
    requires j < |md| && AltChar(md[j]) && s.imageAlt.Some? && s.imageSrc.None?
    requires At(md, j - 1) != Some(']') && !(md[j] == '!' && At(md, j + 1) == Some('['))
    ensures Inline(md, j, s) == s.(imageAlt := Some(s.imageAlt.value + Sanitize(md[j])))
  {
  }

  lemma InlineAltCloses(md: string, j: nat, s: Scan)
    requires j < |md| && md[j] == ']' && At(md, j + 1) == Some('(') && s.imageAlt.Some?
    ensures Inline(md, j, s) == s
  {
  }

  lemma InlineSrcOpens(md: string, j: nat, s: Scan)
    requires j < |md| && md[j] == '(' && At(md, j - 1) == Some(']') && s.imageAlt.Some?
    ensures Inline(md, j, s) == s.(imageSrc := Some(""))
  {
  }

  /** When the input ends with a newline, no `)` ends it. */
  lemma NoLastParen(md: string, j: nat)
    requires j < |md| && md[|md| - 1] == '\n'
    ensures !LastIsParen(md, j)
  {
  }

  lemma InlineSrcCharacter(md: string, j: nat, s: Scan)
    requires j < |md| && SrcChar(md[j]) && s.imageAlt.Some? && s.imageSrc.Some?
    requires At(md, j - 1) != Some(']') && !(md[j] == '!' && At(md, j + 1) == Some('[')) && !LastIsParen(md, j)
    ensures Inline(md, j, s) == s.(imageSrc := Some(s.imageSrc.value + Sanitize(md[j])))
  {
  }

  lemma InlineImageCloses(md: string, j: nat, s: Scan)
    requires j < |md| && md[j] == ')' && s.imageAlt.Some? && s.imageSrc.Some? && !LastIsParen(md, j)
    ensures Inline(md, j, s)
         == s.(line := s.line + ImageTag(s.imageSrc.value, s.imageAlt.value),
               flags := s.flags.(wasImage := true), imageAlt := None, imageSrc := None)
  {
  }

  // Paragraph start and asterisks.

  lemma NotFresh(md: string, j: nat, s: Scan)
    requires 0 < j < |md| && md[j - 1] != '\n'
    ensures Emphasis(md, j, s) == Asterisks(md, j, s)
  {
  }

  lemma Fresh(md: string, j: nat, s: Scan)
    requires j < |md| && (j == 0 || md[j - 1] == '\n')
    ensures Emphasis(md, j, s) == Asterisks(md, j, s.(line := s.line + "<p>"))
  {
  }

  lemma AsterPlain(md: string, j: nat, s: Scan)
    requires j < |md| && md[j] != '*' && (s.flags.inAsterisk || s.asteriskOutNum == 0)
    ensures Asterisks(md, j, s) == s.(line := s.line + Sanitize(md[j]), asteriskOutNum := 0)
  {
  }

  lemma AsterItalicOpens(md: string, j: nat, s: Scan)
    requires j < |md| && md[j] == '*' && At(md, j + 1) != Some('*') && s.asteriskNum == 0 && !s.flags.inAsterisk
    ensures Asterisks(md, j, s) == s.(asteriskNum := 1, line := s.line + "<i>", flags := s.flags.(inAsterisk := true))
  {
  }

  lemma AsterBoldFirst(md: string, j: nat, s: Scan)
    requires j < |md| && md[j] == '*' && At(md, j + 1) == Some('*') && s.asteriskNum == 0 && !s.flags.inAsterisk
    ensures Asterisks(md, j, s) == s.(asteriskNum := 1)
  {
  }

  lemma AsterBoldSecond(md: string, j: nat, s: Scan)
    requires j < |md| && md[j] == '*' && s.asteriskNum == 1 && !s.flags.inAsterisk
    ensures Asterisks(md, j, s) == s.(asteriskNum := 2, line := s.line + "<b>", flags := s.flags.(inAsterisk := true))
  {
  }

  lemma AsterItalicCloses(md: string, j: nat, s: Scan)
    requires j < |md| && md[j] == '*' && s.flags.inAsterisk && s.asteriskNum == 1 && s.asteriskOutNum == 0
    ensures Asterisks(md, j, s)
         == s.(line := s.line + "</i>", flags := s.flags.(inAsterisk := false), asteriskNum := 0, asteriskOutNum := 0)
  {
  }

  /** A lone `*` inside a bold is written. */
  lemma AsterStar(md: string, j: nat, s: Scan)
    requires j < |md| && md[j] == '*' && At(md, j + 1) != Some('*')
    requires s.flags.inAsterisk && s.asteriskNum == 2 && s.asteriskOutNum == 0
    ensures Asterisks(md, j, s) == s.(asteriskOutNum := 1, line := s.line + "*")
  {
  }

  lemma AsterBoldClosesFirst(md: string, j: nat, s: Scan)
    requires j < |md| && md[j] == '*' && At(md, j + 1) == Some('*')
    requires s.flags.inAsterisk && s.asteriskNum == 2 && s.asteriskOutNum == 0
    ensures Asterisks(md, j, s) == s.(asteriskOutNum := 1)
  {
  }

  lemma AsterBoldClosesSecond(md: string, j: nat, s: Scan)
    requires j < |md| && md[j] == '*' && s.flags.inAsterisk && s.asteriskNum == 2 && s.asteriskOutNum == 1
    ensures Asterisks(md, j, s)
         == s.(line := s.line + "</b>", flags := s.flags.(inAsterisk := false), asteriskNum := 0, asteriskOutNum := 0)
  {
  }
}
