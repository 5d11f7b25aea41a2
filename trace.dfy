/** The states the scanner passes through on one input, as a sequence `tr` with
    `tr[i]` the state before position `i`, and what each kind of character in a
    well-formed line does to it. Later proofs reason about `tr` alone, one
    position at a time. */
module MakotoTrace {
  import opened JsStrings
  import opened Makoto
  import opened MakotoBlocks
  import opened MakotoSteps

  /** `tr` lists the states of the loop over `md`, one per position and one at the end. */
  predicate IsTrace(md: string, tr: seq<Scan>)
  {
    |tr| == |md| + 1 && tr[0] == Initial
    && forall i {:trigger Step(md, i, tr[i])} :: 0 <= i < |md| ==> tr[i + 1] == Step(md, i, tr[i])
  }

  /** The trace of `md` exists, and its last state holds the output. */
  lemma TraceOf(md: string) returns (tr: seq<Scan>)
    ensures IsTrace(md, tr) && tr[|md|].html == Parse(md)
  {
    tr := [Initial];
    var i := 0;
    while i < |md|
      invariant i <= |md| && |tr| == i + 1 && tr[0] == Initial
      invariant forall k {:trigger Step(md, k, tr[k])} :: 0 <= k < i ==> tr[k + 1] == Step(md, k, tr[k])
      invariant tr[i] == Run(md, 0, i, Initial)
    {
      tr := tr + [Step(md, i, tr[i])];
      i := i + 1;
    }
  }

  // In the middle of a line.

  lemma PlainAt(md: string, tr: seq<Scan>, j: nat, k: nat)
    requires IsTrace(md, tr) && k == j + 1 && j < |md| && Inside(md, j, tr[j])
    requires Plain(md[j]) && md[j + 1] != '[' && Idle(tr[j]) && (tr[j].flags.inAsterisk || tr[j].asteriskOutNum == 0)
    ensures tr[k] == tr[j].(line := tr[j].line + Sanitize(md[j]), asteriskOutNum := 0,
                            flags := tr[j].flags.(wasImage := false))
  {
    var s := tr[j];
    InsideMid(md, j, s);
    Unescape(md, j, s);
    ToConstructs(md, j, s);
    PastMarks(md, j, s);
    InlineText(md, j, s);
    var s1 := s.(flags := s.flags.(wasImage := false));
    NotFresh(md, j, s1);
    AsterPlain(md, j, s1);
  }

  lemma ItalicOpensAt(md: string, tr: seq<Scan>, j: nat, k: nat)
    requires IsTrace(md, tr) && k == j + 1 && j < |md| && Inside(md, j, tr[j])
    requires md[j] == '*' && md[j + 1] != '*' && BetweenSpans(tr[j])
    ensures tr[k] == tr[j].(asteriskNum := 1, line := tr[j].line + "<i>",
                            flags := tr[j].flags.(wasImage := false, inAsterisk := true))
  {
    var s := tr[j];
    InsideMid(md, j, s);
    Unescape(md, j, s);
    ToConstructs(md, j, s);
    PastMarks(md, j, s);
    InlineText(md, j, s);
    var s1 := s.(flags := s.flags.(wasImage := false));
    NotFresh(md, j, s1);
    AsterItalicOpens(md, j, s1);
  }

  lemma BoldOpensAt(md: string, tr: seq<Scan>, j: nat, k: nat)
    requires IsTrace(md, tr) && k == j + 1 && j < |md| && Inside(md, j, tr[j])
    requires md[j] == '*' && md[j + 1] == '*' && BetweenSpans(tr[j])
    ensures tr[k] == tr[j].(asteriskNum := 1, flags := tr[j].flags.(wasImage := false))
  {
    var s := tr[j];
    InsideMid(md, j, s);
    Unescape(md, j, s);
    ToConstructs(md, j, s);
    PastMarks(md, j, s);
    InlineText(md, j, s);
    var s1 := s.(flags := s.flags.(wasImage := false));
    NotFresh(md, j, s1);
    AsterBoldFirst(md, j, s1);
  }

  lemma BoldSecondAt(md: string, tr: seq<Scan>, j: nat, k: nat)
    requires IsTrace(md, tr) && k == j + 1 && j < |md| && Inside(md, j, tr[j])
    requires md[j] == '*' && Idle(tr[j]) && tr[j].asteriskNum == 1 && !tr[j].flags.inAsterisk
    ensures tr[k] == tr[j].(asteriskNum := 2, line := tr[j].line + "<b>",
                            flags := tr[j].flags.(wasImage := false, inAsterisk := true))
  {
    var s := tr[j];
    InsideMid(md, j, s);
    Unescape(md, j, s);
    ToConstructs(md, j, s);
    PastMarks(md, j, s);
    InlineText(md, j, s);
    var s1 := s.(flags := s.flags.(wasImage := false));
    NotFresh(md, j, s1);
    AsterBoldSecond(md, j, s1);
  }

  lemma ItalicClosesAt(md: string, tr: seq<Scan>, j: nat, k: nat)
    requires IsTrace(md, tr) && k == j + 1 && j < |md| && Inside(md, j, tr[j])
    requires md[j] == '*' && Idle(tr[j]) && tr[j].flags.inAsterisk && tr[j].asteriskNum == 1 && tr[j].asteriskOutNum == 0
    ensures tr[k] == tr[j].(line := tr[j].line + "</i>", asteriskNum := 0, asteriskOutNum := 0,
                            flags := tr[j].flags.(wasImage := false, inAsterisk := false))
  {
    var s := tr[j];
    InsideMid(md, j, s);
    Unescape(md, j, s);
    ToConstructs(md, j, s);
    PastMarks(md, j, s);
    InlineText(md, j, s);
    var s1 := s.(flags := s.flags.(wasImage := false));
    NotFresh(md, j, s1);
    AsterItalicCloses(md, j, s1);
  }

  lemma StarAt(md: string, tr: seq<Scan>, j: nat, k: nat)
    requires IsTrace(md, tr) && k == j + 1 && j < |md| && Inside(md, j, tr[j])
    requires md[j] == '*' && md[j + 1] != '*' && Idle(tr[j])
    requires tr[j].flags.inAsterisk && tr[j].asteriskNum == 2 && tr[j].asteriskOutNum == 0
    ensures tr[k] == tr[j].(line := tr[j].line + "*", asteriskOutNum := 1, flags := tr[j].flags.(wasImage := false))
  {
    var s := tr[j];
    InsideMid(md, j, s);
    Unescape(md, j, s);
    ToConstructs(md, j, s);
    PastMarks(md, j, s);
    InlineText(md, j, s);
    var s1 := s.(flags := s.flags.(wasImage := false));
    NotFresh(md, j, s1);
    AsterStar(md, j, s1);
  }

  lemma BoldClosesAt(md: string, tr: seq<Scan>, j: nat, k: nat)
    requires IsTrace(md, tr) && k == j + 1 && j < |md| && Inside(md, j, tr[j])
    requires md[j] == '*' && md[j + 1] == '*' && Idle(tr[j])
    requires tr[j].flags.inAsterisk && tr[j].asteriskNum == 2 && tr[j].asteriskOutNum == 0
    ensures tr[k] == tr[j].(asteriskOutNum := 1, flags := tr[j].flags.(wasImage := false))
  {
    var s := tr[j];
    InsideMid(md, j, s);
    Unescape(md, j, s);
    ToConstructs(md, j, s);
    PastMarks(md, j, s);
    InlineText(md, j, s);
    var s1 := s.(flags := s.flags.(wasImage := false));
    NotFresh(md, j, s1);
    AsterBoldClosesFirst(md, j, s1);
  }

  lemma BoldClosedAt(md: string, tr: seq<Scan>, j: nat, k: nat)
    requires IsTrace(md, tr) && k == j + 1 && j < |md| && Inside(md, j, tr[j])
    requires md[j] == '*' && Idle(tr[j])
    requires tr[j].flags.inAsterisk && tr[j].asteriskNum == 2 && tr[j].asteriskOutNum == 1
    ensures tr[k] == tr[j].(line := tr[j].line + "</b>", asteriskNum := 0, asteriskOutNum := 0,
                            flags := tr[j].flags.(wasImage := false, inAsterisk := false))
  {
    var s := tr[j];
    InsideMid(md, j, s);
    Unescape(md, j, s);
    ToConstructs(md, j, s);
    PastMarks(md, j, s);
    InlineText(md, j, s);
    var s1 := s.(flags := s.flags.(wasImage := false));
    NotFresh(md, j, s1);
    AsterBoldClosesSecond(md, j, s1);
  }

  lemma BangAt(md: string, tr: seq<Scan>, j: nat, k: nat)
    requires IsTrace(md, tr) && k == j + 1 && j < |md| && Inside(md, j, tr[j])
    requires md[j] == '!' && md[j + 1] == '[' && !tr[j].flags.backslashed && !tr[j].flags.inCode
    ensures tr[k] == tr[j]
  {
    var s := tr[j];
    InsideMid(md, j, s);
    Unescape(md, j, s);
    ToConstructs(md, j, s);
    PastMarks(md, j, s);
    InlineBang(md, j, s);
  }

  lemma AltOpensAt(md: string, tr: seq<Scan>, j: nat, k: nat)
    requires IsTrace(md, tr) && k == j + 1 && j < |md| && Inside(md, j, tr[j])
    requires md[j] == '[' && md[j - 1] == '!' && Idle(tr[j])
    ensures tr[k] == tr[j].(imageAlt := Some(""))
  {
    var s := tr[j];
    InsideMid(md, j, s);
    Unescape(md, j, s);
    ToConstructs(md, j, s);
    PastMarks(md, j, s);
    InlineAltOpens(md, j, s);
  }

  lemma AltCharAt(md: string, tr: seq<Scan>, j: nat, k: nat)
    requires IsTrace(md, tr) && k == j + 1 && j < |md| && Inside(md, j, tr[j])
    requires AltChar(md[j]) && md[j - 1] != ']' && md[j + 1] != '['
    requires !tr[j].flags.backslashed && !tr[j].flags.inCode && tr[j].imageAlt.Some? && tr[j].imageSrc.None?
    ensures tr[k] == tr[j].(imageAlt := Some(tr[j].imageAlt.value + Sanitize(md[j])))
  {
    var s := tr[j];
    InsideMid(md, j, s);
    Unescape(md, j, s);
    ToConstructs(md, j, s);
    PastMarks(md, j, s);
    InlineAltCharacter(md, j, s);
  }

  lemma AltClosesAt(md: string, tr: seq<Scan>, j: nat, k: nat)
    requires IsTrace(md, tr) && k == j + 1 && j < |md| && Inside(md, j, tr[j])
    requires md[j] == ']' && md[j + 1] == '(' && !tr[j].flags.backslashed && !tr[j].flags.inCode && tr[j].imageAlt.Some?
    ensures tr[k] == tr[j]
  {
    var s := tr[j];
    InsideMid(md, j, s);
    Unescape(md, j, s);
    ToConstructs(md, j, s);
    PastMarks(md, j, s);
    InlineAltCloses(md, j, s);
  }

  lemma SrcOpensAt(md: string, tr: seq<Scan>, j: nat, k: nat)
    requires IsTrace(md, tr) && k == j + 1 && j < |md| && Inside(md, j, tr[j])
    requires md[j] == '(' && md[j - 1] == ']' && !tr[j].flags.backslashed && !tr[j].flags.inCode && tr[j].imageAlt.Some?
    ensures tr[k] == tr[j].(imageSrc := Some(""))
  {
    var s := tr[j];
    InsideMid(md, j, s);
    Unescape(md, j, s);
    ToConstructs(md, j, s);
    PastMarks(md, j, s);
    InlineSrcOpens(md, j, s);
  }

  lemma SrcCharAt(md: string, tr: seq<Scan>, j: nat, k: nat)
    requires IsTrace(md, tr) && k == j + 1 && j < |md| && Inside(md, j, tr[j]) && md[|md| - 1] == '\n'
    requires SrcChar(md[j]) && md[j - 1] != ']' && md[j + 1] != '['
    requires !tr[j].flags.backslashed && !tr[j].flags.inCode && tr[j].imageAlt.Some? && tr[j].imageSrc.Some?
    ensures tr[k] == tr[j].(imageSrc := Some(tr[j].imageSrc.value + Sanitize(md[j])))
  {
    var s := tr[j];
    InsideMid(md, j, s);
    Unescape(md, j, s);
    ToConstructs(md, j, s);
    PastMarks(md, j, s);
    NoLastParen(md, j);
    InlineSrcCharacter(md, j, s);
  }

  lemma ImageClosesAt(md: string, tr: seq<Scan>, j: nat, k: nat)
    requires IsTrace(md, tr) && k == j + 1 && j < |md| && Inside(md, j, tr[j]) && md[|md| - 1] == '\n'
    requires md[j] == ')' && !tr[j].flags.backslashed && !tr[j].flags.inCode
    requires tr[j].imageAlt.Some? && tr[j].imageSrc.Some?
    ensures tr[k] == tr[j].(line := tr[j].line + ImageTag(tr[j].imageSrc.value, tr[j].imageAlt.value),
                            flags := tr[j].flags.(wasImage := true), imageAlt := None, imageSrc := None)
  {
    var s := tr[j];
    InsideMid(md, j, s);
    Unescape(md, j, s);
    ToConstructs(md, j, s);
    PastMarks(md, j, s);
    NoLastParen(md, j);
    InlineImageCloses(md, j, s);
  }

  // Escapes and newlines, anywhere on a line.

  lemma EscapeAt(md: string, tr: seq<Scan>, j: nat, k: nat)
    requires IsTrace(md, tr) && k == j + 1 && j + 1 < |md|
    requires md[j] == '\\' && md[j + 1] != '\n' && !tr[j].flags.backslashed
    ensures tr[k] == tr[j].(flags := tr[j].flags.(backslashed := true),
                            line := if j == 0 || md[j - 1] == '\n' then tr[j].line + "<p>" else tr[j].line)
  {
    EscapeOpens(md, j, tr[j]);
  }

  lemma EscapedAt(md: string, tr: seq<Scan>, j: nat, k: nat)
    requires IsTrace(md, tr) && k == j + 1 && j + 1 < |md| && tr[j].flags.backslashed
    ensures tr[k] == tr[j].(flags := tr[j].flags.(backslashed := false), line := tr[j].line + Sanitize(md[j]))
  {
    EscapedCharacter(md, j, tr[j]);
  }

  lemma NewlineAt(md: string, tr: seq<Scan>, j: nat, k: nat)
    requires IsTrace(md, tr) && k == j + 1 && j < |md|
    requires md[j] == '\n' && !tr[j].flags.backslashed && tr[j].imageAlt.None?
    ensures tr[k] == CloseLine(md, j, AppendLine(tr[j].(flags := tr[j].flags.(isFirstLine := false))))
  {
    NewlineStep(md, j, tr[j]);
  }

  // The first character of a line.

  /** The state is at the start of a line, with no marks counted. */
  predicate LineHead(md: string, j: nat, s: Scan)
  {
    j + 1 < |md| && (j == 0 || md[j - 1] == '\n') && BetweenSpans(s)
    && s.headingLevel == 0 && s.horizontalNum == 0
  }

  lemma FreshPlainAt(md: string, tr: seq<Scan>, j: nat, k: nat)
    requires IsTrace(md, tr) && k == j + 1 && j < |md| && LineHead(md, j, tr[j])
    requires Plain(md[j]) && md[j] != '#' && md[j] != '-' && md[j + 1] != '['
    ensures tr[k] == tr[j].(line := tr[j].line + "<p>" + Sanitize(md[j]), asteriskOutNum := 0,
                            flags := tr[j].flags.(wasImage := false))
  {
    var s := tr[j];
    Unescape(md, j, s);
    ToConstructs(md, j, s);
    NoMarks(md, j, s);
    InlineText(md, j, s);
    var s1 := s.(flags := s.flags.(wasImage := false));
    Fresh(md, j, s1);
    AsterPlain(md, j, s1.(line := s1.line + "<p>"));
  }

  lemma FreshItalicAt(md: string, tr: seq<Scan>, j: nat, k: nat)
    requires IsTrace(md, tr) && k == j + 1 && j < |md| && LineHead(md, j, tr[j])
    requires md[j] == '*' && md[j + 1] != '*'
    ensures tr[k] == tr[j].(asteriskNum := 1, line := tr[j].line + "<p>" + "<i>",
                            flags := tr[j].flags.(wasImage := false, inAsterisk := true))
  {
    var s := tr[j];
    Unescape(md, j, s);
    ToConstructs(md, j, s);
    NoMarks(md, j, s);
    InlineText(md, j, s);
    var s1 := s.(flags := s.flags.(wasImage := false));
    Fresh(md, j, s1);
    AsterItalicOpens(md, j, s1.(line := s1.line + "<p>"));
  }

  lemma FreshBoldAt(md: string, tr: seq<Scan>, j: nat, k: nat)
    requires IsTrace(md, tr) && k == j + 1 && j < |md| && LineHead(md, j, tr[j])
    requires md[j] == '*' && md[j + 1] == '*'
    ensures tr[k] == tr[j].(asteriskNum := 1, line := tr[j].line + "<p>", flags := tr[j].flags.(wasImage := false))
  {
    var s := tr[j];
    Unescape(md, j, s);
    ToConstructs(md, j, s);
    NoMarks(md, j, s);
    InlineText(md, j, s);
    var s1 := s.(flags := s.flags.(wasImage := false));
    Fresh(md, j, s1);
    AsterBoldFirst(md, j, s1.(line := s1.line + "<p>"));
  }

  lemma FreshBangAt(md: string, tr: seq<Scan>, j: nat, k: nat)
    requires IsTrace(md, tr) && k == j + 1 && j < |md| && LineHead(md, j, tr[j])
    requires md[j] == '!' && md[j + 1] == '['
    ensures tr[k] == tr[j]
  {
    var s := tr[j];
    Unescape(md, j, s);
    ToConstructs(md, j, s);
    NoMarks(md, j, s);
    InlineBang(md, j, s);
  }

  // `#` runs.

  /** The `#`s read so far start the line; no heading is open. */
  predicate HashRunAt(md: string, j: nat, s: Scan)
  {
    j + 1 < |md| && Anchored(md, j, s.headingLevel, '#', s.flags.isFirstLine)
    && !s.flags.inHeading && !s.flags.backslashed && !s.flags.inCode
  }

  lemma HashAt(md: string, tr: seq<Scan>, j: nat, k: nat)
    requires IsTrace(md, tr) && k == j + 1 && j < |md| && HashRunAt(md, j, tr[j])
    requires md[j] == '#' && tr[j].headingLevel <= 6
    ensures tr[k] == tr[j].(headingLevel := tr[j].headingLevel + 1)
  {
    var s := tr[j];
    Unescape(md, j, s);
    ToConstructs(md, j, s);
    HashMark(md, j, s);
  }

  lemma HeadingSpaceAt(md: string, tr: seq<Scan>, j: nat, k: nat)
    requires IsTrace(md, tr) && k == j + 1 && j < |md| && HashRunAt(md, j, tr[j])
    requires md[j] == ' ' && tr[j].headingLevel > 0
    ensures tr[k] == tr[j].(flags := tr[j].flags.(inHeading := true),
                            line := tr[j].line + HeadingOpenTag(tr[j].headingLevel, tr[j].headerNum),
                            headerNum := tr[j].headerNum + 1)
  {
    var s := tr[j];
    Unescape(md, j, s);
    ToConstructs(md, j, s);
    HeadingSpace(md, j, s);
  }

  /** Right after a run of `#`s that is not a heading. */
  predicate AfterHashes(md: string, j: nat, s: Scan)
  {
    HashRunAt(md, j, s) && 0 < j && md[j - 1] != '\n' && s.headingLevel > 0 && s.horizontalNum == 0
    && BetweenSpans(s) && md[j] != '#' && md[j] != ' '
  }

  function HashesText(s: Scan): Scan
  {
    s.(line := s.line + "<p>" + Repeat('#', s.headingLevel), headingLevel := 0)
  }

  lemma HashesPlainAt(md: string, tr: seq<Scan>, j: nat, k: nat)
    requires IsTrace(md, tr) && k == j + 1 && j < |md| && AfterHashes(md, j, tr[j])
    requires Plain(md[j]) && md[j + 1] != '['
    ensures tr[k] == HashesText(tr[j]).(line := HashesText(tr[j]).line + Sanitize(md[j]), asteriskOutNum := 0,
                                        flags := tr[j].flags.(wasImage := false))
  {
    var s := tr[j];
    Unescape(md, j, s);
    ToConstructs(md, j, s);
    EndOfHashes(md, j, s);
    var s0 := HashesText(s);
    InlineText(md, j, s0);
    var s1 := s0.(flags := s0.flags.(wasImage := false));
    NotFresh(md, j, s1);
    AsterPlain(md, j, s1);
  }

  lemma HashesItalicAt(md: string, tr: seq<Scan>, j: nat, k: nat)
    requires IsTrace(md, tr) && k == j + 1 && j < |md| && AfterHashes(md, j, tr[j])
    requires md[j] == '*' && md[j + 1] != '*'
    ensures tr[k] == HashesText(tr[j]).(asteriskNum := 1, line := HashesText(tr[j]).line + "<i>",
                                        flags := tr[j].flags.(wasImage := false, inAsterisk := true))
  {
    var s := tr[j];
    Unescape(md, j, s);
    ToConstructs(md, j, s);
    EndOfHashes(md, j, s);
    var s0 := HashesText(s);
    InlineText(md, j, s0);
    var s1 := s0.(flags := s0.flags.(wasImage := false));
    NotFresh(md, j, s1);
    AsterItalicOpens(md, j, s1);
  }

  lemma HashesBoldAt(md: string, tr: seq<Scan>, j: nat, k: nat)
    requires IsTrace(md, tr) && k == j + 1 && j < |md| && AfterHashes(md, j, tr[j])
    requires md[j] == '*' && md[j + 1] == '*'
    ensures tr[k] == HashesText(tr[j]).(asteriskNum := 1, flags := tr[j].flags.(wasImage := false))
  {
    var s := tr[j];
    Unescape(md, j, s);
    ToConstructs(md, j, s);
    EndOfHashes(md, j, s);
    var s0 := HashesText(s);
    InlineText(md, j, s0);
    var s1 := s0.(flags := s0.flags.(wasImage := false));
    NotFresh(md, j, s1);
    AsterBoldFirst(md, j, s1);
  }

  // `-` runs.

  /** The `-`s read so far start the line. */
  predicate DashRunAt(md: string, j: nat, s: Scan)
  {
    j + 1 < |md| && Anchored(md, j, s.horizontalNum, '-', s.flags.isFirstLine)
    && s.headingLevel == 0 && !s.flags.backslashed && !s.flags.inCode
  }

  lemma DashAt(md: string, tr: seq<Scan>, j: nat, k: nat)
    requires IsTrace(md, tr) && k == j + 1 && j < |md| && DashRunAt(md, j, tr[j])
    requires md[j] == '-' && tr[j].horizontalNum + 1 < 3 && md[j + 1] != '\n' && j + 2 < |md|
    ensures tr[k] == tr[j].(horizontalNum := tr[j].horizontalNum + 1)
  {
    var s := tr[j];
    Unescape(md, j, s);
    ToConstructs(md, j, s);
    DashMark(md, j, s);
    DashRunning(md, j, s);
  }

  lemma DashShortAt(md: string, tr: seq<Scan>, j: nat, k: nat)
    requires IsTrace(md, tr) && k == j + 1 && j < |md| && DashRunAt(md, j, tr[j])
    requires md[j] == '-' && tr[j].horizontalNum + 1 < 3 && md[j + 1] == '\n'
    ensures tr[k] == tr[j].(horizontalNum := tr[j].horizontalNum + 1,
                            line := "<p>" + Repeat('-', tr[j].horizontalNum + 1))
  {
    var s := tr[j];
    Unescape(md, j, s);
    ToConstructs(md, j, s);
    DashMark(md, j, s);
    DashShort(md, j, s);
  }

  lemma DashThirdAt(md: string, tr: seq<Scan>, j: nat, k: nat)
    requires IsTrace(md, tr) && k == j + 1 && j < |md| && DashRunAt(md, j, tr[j])
    requires md[j] == '-' && tr[j].horizontalNum == 2
    ensures tr[k] == tr[j].(horizontalNum := 3, flags := tr[j].flags.(horizontalRule := true), line := "<hr>")
  {
    var s := tr[j];
    Unescape(md, j, s);
    ToConstructs(md, j, s);
    DashMark(md, j, s);
    DashThird(md, j, s);
  }

  lemma DashBeyondAt(md: string, tr: seq<Scan>, j: nat, k: nat)
    requires IsTrace(md, tr) && k == j + 1 && j < |md| && DashRunAt(md, j, tr[j])
    requires md[j] == '-' && tr[j].horizontalNum >= 3
    ensures tr[k] == tr[j].(horizontalNum := tr[j].horizontalNum + 1)
  {
    var s := tr[j];
    Unescape(md, j, s);
    ToConstructs(md, j, s);
    DashMark(md, j, s);
    DashBeyond(md, j, s);
  }

  /** Right after one or two `-`s followed by something else. */
  predicate AfterDashes(md: string, j: nat, s: Scan)
  {
    DashRunAt(md, j, s) && 0 < j && md[j - 1] != '\n' && s.horizontalNum > 0 && BetweenSpans(s) && md[j] != '-'
  }

  function DashesText(s: Scan): Scan
  {
    s.(line := "<p>" + Repeat('-', s.horizontalNum))
  }

  lemma DashesPlainAt(md: string, tr: seq<Scan>, j: nat, k: nat)
    requires IsTrace(md, tr) && k == j + 1 && j < |md| && AfterDashes(md, j, tr[j])
    requires Plain(md[j]) && md[j + 1] != '['
    ensures tr[k] == DashesText(tr[j]).(line := DashesText(tr[j]).line + Sanitize(md[j]), asteriskOutNum := 0,
                                        flags := tr[j].flags.(wasImage := false))
  {
    var s := tr[j];
    Unescape(md, j, s);
    ToConstructs(md, j, s);
    EndOfDashes(md, j, s);
    var s0 := DashesText(s);
    InlineText(md, j, s0);
    var s1 := s0.(flags := s0.flags.(wasImage := false));
    NotFresh(md, j, s1);
    AsterPlain(md, j, s1);
  }

  lemma DashesItalicAt(md: string, tr: seq<Scan>, j: nat, k: nat)
    requires IsTrace(md, tr) && k == j + 1 && j < |md| && AfterDashes(md, j, tr[j])
    requires md[j] == '*' && md[j + 1] != '*'
    ensures tr[k] == DashesText(tr[j]).(asteriskNum := 1, line := DashesText(tr[j]).line + "<i>",
                                        flags := tr[j].flags.(wasImage := false, inAsterisk := true))
  {
    var s := tr[j];
    Unescape(md, j, s);
    ToConstructs(md, j, s);
    EndOfDashes(md, j, s);
    var s0 := DashesText(s);
    InlineText(md, j, s0);
    var s1 := s0.(flags := s0.flags.(wasImage := false));
    NotFresh(md, j, s1);
    AsterItalicOpens(md, j, s1);
  }

  lemma DashesBoldAt(md: string, tr: seq<Scan>, j: nat, k: nat)
    requires IsTrace(md, tr) && k == j + 1 && j < |md| && AfterDashes(md, j, tr[j])
    requires md[j] == '*' && md[j + 1] == '*'
    ensures tr[k] == DashesText(tr[j]).(asteriskNum := 1, flags := tr[j].flags.(wasImage := false))
  {
    var s := tr[j];
    Unescape(md, j, s);
    ToConstructs(md, j, s);
    EndOfDashes(md, j, s);
    var s0 := DashesText(s);
    InlineText(md, j, s0);
    var s1 := s0.(flags := s0.flags.(wasImage := false));
    NotFresh(md, j, s1);
    AsterBoldFirst(md, j, s1);
  }
}
