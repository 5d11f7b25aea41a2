/** Inputs worked out one character at a time. Two of the repository's test inputs end
    without a newline, so their last character goes through the scanner's separate
    handling of the end of the input; two more lines show an escape that makes a
    counted `-` or `#` run disappear. */
module MakotoTraceExamples {
  import opened JsStrings
  import opened Makoto
  import MakotoExamples
  import MakotoQuirks

  /** The loop over the first `k + 1` characters is the loop over `k` and one more step. */
  lemma RunSnoc(md: string, k: nat, s: Scan)
    requires k < |md|
    ensures Run(md, 0, k + 1, s) == Step(md, k, Run(md, 0, k, s))
  {
  }

  // "a\n\n\nb": the last line starts afresh after the newlines.

  const Letters: string := "a\n\n\nb"

  /** After the first line: a paragraph written, the first line over. */
  const AfterA: Scan :=
    Scan("<p>a</p>\n", "", Flags(false, false, false, false, false, false, false), 0, 0, 0, 0, 0, None, None)

  lemma LettersStep0()
    ensures Step(Letters, 0, Initial) == Initial.(line := "<p>a")
  {
    assert Letters[0] == 'a' && |Letters| == 5;
    assert Code(Letters, 0, Initial) == Passed(Initial);
    assert RunAnchored(Letters, 0, 0, '#', true) && RunAnchored(Letters, 0, 0, '-', true);
    assert Constructs(Letters, 0, Initial) == Inline(Letters, 0, Initial);
  }

  lemma LettersStep1()
    ensures Step(Letters, 1, Initial.(line := "<p>a")) == AfterA
  {
    var s := Initial.(line := "<p>a");
    assert Letters[1] == '\n' && |Letters| == 5;
    assert StartsWith(s.line, "<p>");
    assert "<p>a" + "</p>\n" == "<p>a</p>\n";
  }

  /** A blank line writes nothing. */
  lemma LettersBlank(i: nat)
    requires i == 2 || i == 3
    ensures Step(Letters, i, AfterA) == AfterA
  {
    assert Letters[i] == '\n' && |Letters| == 5;
    assert !StartsWith(AfterA.line, "<p>");
    assert AfterA.html + "" == AfterA.html;
  }

  lemma LettersPrefix()
    ensures Run(Letters, 0, 4, Initial) == AfterA
  {
    RunSnoc(Letters, 0, Initial);
    LettersStep0();
    RunSnoc(Letters, 1, Initial);
    LettersStep1();
    RunSnoc(Letters, 2, Initial);
    LettersBlank(2);
    RunSnoc(Letters, 3, Initial);
    LettersBlank(3);
  }

  lemma LettersLastLine()
    ensures LastCharacter(Letters, 4, AfterA) == AfterA.(line := "<p>b")
  {
    assert Letters[4] == 'b' && At(Letters, 3) == Some('\n');
  }

  lemma LettersLastHtml()
    ensures AppendLine(AfterA.(line := "<p>b")).html == "<p>a</p>\n<p>b</p>\n"
  {
    assert StartsWith("<p>b", "<p>");
    assert "<p>a</p>\n" + "<p>b" + "</p>\n" == "<p>a</p>\n<p>b</p>\n";
  }

  lemma LettersStep4()
    ensures Step(Letters, 4, AfterA).html == "<p>a</p>\n<p>b</p>"
  {
    assert Letters[4] == 'b' && |Letters| == 5;
    assert Step(Letters, 4, AfterA) == EndOfLine(Letters, 4, AfterA);
    LettersLastLine();
    LettersLastHtml();
    MakotoExamples.TwoParagraphsTrim();
  }

  /** index.ts:13: the test's expected output. */
  lemma NewLineNoFinalNewline()
    ensures Parse("a\n\n\nb") == "<p>a</p>\n<p>b</p>"
  {
    LettersPrefix();
    RunSnoc(Letters, 4, Initial);
    LettersStep4();
  }

  // "****a*": two `*` open a bold, two close it at once, and the last `*` is written.

  const Stars: string := "****a*"

  /** The state once the bold has opened and closed again: an empty bold written. */
  const AfterBold: Scan :=
    Scan("", "<p><b></b>", Flags(true, false, false, false, false, false, false), 0, 0, 0, 0, 0, None, None)

  lemma StarsStep0()
    ensures Step(Stars, 0, Initial) == Initial.(line := "<p>", asteriskNum := 1)
  {
    assert Stars[0] == '*' && At(Stars, 1) == Some('*') && |Stars| == 6;
    assert Code(Stars, 0, Initial) == Passed(Initial);
    assert RunAnchored(Stars, 0, 0, '#', true) && RunAnchored(Stars, 0, 0, '-', true);
    assert Constructs(Stars, 0, Initial) == Inline(Stars, 0, Initial);
  }

  /** No `*` after the first starts a line, so none makes a heading or a rule. */
  lemma StarsUnanchored(i: nat, n: nat, mark: char)
    requires 1 <= i <= 4 && n == 0
    ensures !RunAnchored(Stars, i, n, mark, true)
  {
    assert Slice(Stars, i - 1, i) == [Stars[i - 1]];
    assert Slice(Stars, 0, i) == Stars[..i];
    assert |Stars[..i]| == i;
  }

  lemma StarsStep1()
    ensures Step(Stars, 1, Initial.(line := "<p>", asteriskNum := 1))
         == Initial.(line := "<p><b>", asteriskNum := 2, flags := Initial.flags.(inAsterisk := true))
  {
    var s := Initial.(line := "<p>", asteriskNum := 1);
    assert Stars[1] == '*' && At(Stars, 0) == Some('*') && |Stars| == 6;
    StarsUnanchored(1, 0, '#');
    StarsUnanchored(1, 0, '-');
    assert Constructs(Stars, 1, s) == Inline(Stars, 1, s);
  }

  lemma StarsStep2()
    ensures var s := Initial.(line := "<p><b>", asteriskNum := 2, flags := Initial.flags.(inAsterisk := true));
      Step(Stars, 2, s) == s.(asteriskOutNum := 1)
  {
    var s := Initial.(line := "<p><b>", asteriskNum := 2, flags := Initial.flags.(inAsterisk := true));
    assert Stars[2] == '*' && At(Stars, 3) == Some('*') && |Stars| == 6;
    StarsUnanchored(2, 0, '#');
    StarsUnanchored(2, 0, '-');
    assert Constructs(Stars, 2, s) == Inline(Stars, 2, s);
  }

  lemma StarsStep3()
    ensures var s := Initial.(line := "<p><b>", asteriskNum := 2, flags := Initial.flags.(inAsterisk := true));
      Step(Stars, 3, s.(asteriskOutNum := 1)) == AfterBold
  {
    var s := Initial.(line := "<p><b>", asteriskNum := 2, flags := Initial.flags.(inAsterisk := true), asteriskOutNum := 1);
    assert Stars[3] == '*' && |Stars| == 6;
    StarsUnanchored(3, 0, '#');
    StarsUnanchored(3, 0, '-');
    assert Constructs(Stars, 3, s) == Inline(Stars, 3, s);
    assert "<p><b>" + "</b>" == "<p><b></b>";
  }

  lemma StarsStep4()
    ensures Step(Stars, 4, AfterBold) == AfterBold.(line := "<p><b></b>a")
  {
    assert Stars[4] == 'a' && At(Stars, 3) == Some('*') && |Stars| == 6;
    StarsUnanchored(4, 0, '#');
    StarsUnanchored(4, 0, '-');
    assert Constructs(Stars, 4, AfterBold) == Inline(Stars, 4, AfterBold);
  }

  lemma StarsPrefix()
    ensures Run(Stars, 0, 5, Initial) == AfterBold.(line := "<p><b></b>a")
  {
    RunSnoc(Stars, 0, Initial);
    StarsStep0();
    RunSnoc(Stars, 1, Initial);
    StarsStep1();
    RunSnoc(Stars, 2, Initial);
    StarsStep2();
    RunSnoc(Stars, 3, Initial);
    StarsStep3();
    RunSnoc(Stars, 4, Initial);
    StarsStep4();
  }

  /** The last `*` closes nothing, no emphasis being open, and is written as it is. */
  lemma StarsLastLine()
    ensures var s := AfterBold.(line := "<p><b></b>a", flags := AfterBold.flags.(isFirstLine := false));
      LastCharacter(Stars, 5, s) == s.(line := "<p><b></b>a*")
  {
    assert Stars[5] == '*' && At(Stars, 4) == Some('a');
    assert "<p><b></b>a" + "*" == "<p><b></b>a*";
  }

  lemma StarsLastHtml()
    ensures Trim(AppendLine(AfterBold.(line := "<p><b></b>a*")).html) == "<p><b></b>a*</p>"
  {
    assert StartsWith("<p><b></b>a*", "<p>");
    assert "" + "<p><b></b>a*" + "</p>\n" == "<p><b></b>a*</p>" + "\n";
    MakotoExamples.TrimLastNewline("<p><b></b>a*</p>");
  }

  lemma StarsStep5()
    ensures Step(Stars, 5, AfterBold.(line := "<p><b></b>a")).html == "<p><b></b>a*</p>"
  {
    var s := AfterBold.(line := "<p><b></b>a");
    assert Stars[5] == '*' && |Stars| == 6;
    assert Step(Stars, 5, s) == EndOfLine(Stars, 5, s);
    StarsLastLine();
    StarsLastHtml();
  }

  /** index.ts:29: the test's expected output. */
  lemma EmptyBold()
    ensures Parse("****a*") == "<p><b></b>a*</p>"
  {
    StarsPrefix();
    RunSnoc(Stars, 5, Initial);
    StarsStep5();
  }

  // "-\a\n" and "#\a\n": an escape right after a counted run. The run is held in its
  // count, the escaped character never reaches the run handlers, and the line ends with
  // the count cleared: the mark is lost and no paragraph opens.

  /** The line after a counted run of one `mark`, a backslash and `a`. */
  function EscapedRun(mark: char): string
  {
    [mark] + "\\a\n"
  }

  /** The state after the run: the mark counted, nothing written. */
  function RunCounted(mark: char): Scan
  {
    if mark == '-' then Initial.(horizontalNum := 1) else Initial.(headingLevel := 1)
  }

  lemma EscapedRunStep0(mark: char)
    requires mark == '-' || mark == '#'
    ensures Step(EscapedRun(mark), 0, Initial) == RunCounted(mark)
  {
    var md := EscapedRun(mark);
    assert md[0] == mark && md[1] == '\\' && |md| == 4;
    assert Code(md, 0, Initial) == Passed(Initial);
    assert RunAnchored(md, 0, 0, '#', true) && RunAnchored(md, 0, 0, '-', true);
  }

  lemma EscapedRunPrefix(mark: char)
    requires mark == '-' || mark == '#'
    ensures Run(EscapedRun(mark), 0, 3, Initial) == RunCounted(mark).(line := "a")
  {
    var md := EscapedRun(mark);
    assert md[1] == '\\' && md[2] == 'a' && md[0] != '\n' && |md| == 4;
    RunSnoc(md, 0, Initial);
    EscapedRunStep0(mark);
    RunSnoc(md, 1, Initial);
    RunSnoc(md, 2, Initial);
    MakotoQuirks.EscapeAfterRun(md, 1, RunCounted(mark));
  }

  /** The newline writes the line as it is and clears the count. */
  lemma EscapedRunStep3(mark: char)
    requires mark == '-' || mark == '#'
    ensures Step(EscapedRun(mark), 3, RunCounted(mark).(line := "a")).html == "a"
  {
    var md := EscapedRun(mark);
    assert md[3] == '\n' && |md| == 4;
    assert !StartsWith("a", "<p>");
    assert "" + "a" == "a";
    TrimNoWhitespaceEnds("a");
  }

  /** `-\a` then a newline outputs only `a`: the dash is lost. */
  lemma EscapedDashLost()
    ensures Parse("-\\a\n") == "a"
  {
    assert EscapedRun('-') == "-\\a\n";
    EscapedRunPrefix('-');
    RunSnoc(EscapedRun('-'), 3, Initial);
    EscapedRunStep3('-');
  }

  /** `#\a` then a newline outputs only `a`: the `#` is lost. */
  lemma EscapedHashLost()
    ensures Parse("#\\a\n") == "a"
  {
    assert EscapedRun('#') == "#\\a\n";
    EscapedRunPrefix('#');
    RunSnoc(EscapedRun('#'), 3, Initial);
    EscapedRunStep3('#');
  }
}
