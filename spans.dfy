/** What the scanner does over whole spans of a well-formed line: the text of a
    span is written character by character, and each span leaves the state it
    found with its HTML appended to the line. */
module MakotoSpans {
  import opened JsStrings
  import opened Makoto
  import opened MakotoBlocks
  import opened MakotoSteps
  import opened MakotoTrace

  /** `t` is written in `md` from position `a` on. */
  predicate Occurs(md: string, a: nat, t: string)
    decreases |t|
  {
    a + |t| <= |md| && (t == [] || (md[a] == t[0] && Occurs(md, a + 1, t[1..])))
  }

  lemma {:induction false} OccursSplit(md: string, a: nat, x: string, y: string)
    requires Occurs(md, a, x + y)
    ensures Occurs(md, a, x) && Occurs(md, a + |x|, y)
    decreases |x|
  {
    if x == [] {
      assert x + y == y;
    } else {
      assert (x + y)[0] == x[0] && (x + y)[1..] == x[1..] + y;
      OccursSplit(md, a + 1, x[1..], y);
    }
  }

  lemma {:induction false} OccursJoin(md: string, a: nat, x: string, y: string)
    requires Occurs(md, a, x) && Occurs(md, a + |x|, y)
    ensures Occurs(md, a, x + y)
    decreases |x|
  {
    if x == [] {
      assert x + y == y;
    } else {
      OccursJoin(md, a + 1, x[1..], y);
      assert (x + y)[0] == x[0] && (x + y)[1..] == x[1..] + y;
    }
  }

  /** A text is written where it starts. */
  lemma {:induction false} OccursRest(md: string, a: nat)
    requires a <= |md|
    ensures Occurs(md, a, md[a..])
    decreases |md| - a
  {
    if a < |md| {
      OccursRest(md, a + 1);
      assert md[a..][1..] == md[a + 1..];
    }
  }

  /** Characters `p` to `e - 1` form a line, ended by the newline at `e`. */
  predicate InLine(md: string, p: nat, e: nat)
  {
    p <= e < |md| && md[e] == '\n' && forall k :: p <= k < e ==> md[k] != '\n'
  }

  lemma InLineInside(md: string, p: nat, e: nat, j: nat, s: Scan)
    requires InLine(md, p, e) && p + s.headingLevel < j < e && p + s.horizontalNum < j
    ensures Inside(md, j, s)
  {
  }

  /** What every lemma below assumes of the input and its trace. */
  predicate InTrace(md: string, tr: seq<Scan>, p: nat, e: nat)
  {
    IsTrace(md, tr) && InLine(md, p, e) && md[|md| - 1] == '\n'
  }

  /** The characters from `a` to `b - 1` as the scanner writes them. */
  function Written(md: string, a: nat, b: nat): string
    requires b <= |md|
    decreases b
  {
    if b <= a then "" else Written(md, a, b - 1) + Sanitize(md[b - 1])
  }

  /** Character by character. */
  lemma {:induction false} OccursChars(md: string, a: nat, t: string)
    requires Occurs(md, a, t)
    ensures forall k :: 0 <= k < |t| ==> md[a + k] == t[k]
    decreases |t|
  {
    if t != [] {
      OccursChars(md, a + 1, t[1..]);
      forall k | 0 <= k < |t|
        ensures md[a + k] == t[k]
      {
        if k > 0 {
          assert t[1..][k - 1] == t[k];
        }
      }
    }
  }

  /** `Written` is the sanitized text of what is written in `md`, prefix by prefix. */
  lemma {:induction false} WrittenPrefix(md: string, a: nat, u: string, n: nat)
    requires n <= |u| && a + |u| <= |md| && forall k :: 0 <= k < |u| ==> md[a + k] == u[k]
    ensures Written(md, a, a + n) == SanitizeAll(u[..n])
  {
    if n > 0 {
      WrittenPrefix(md, a, u, n - 1);
      assert u[..n][..n - 1] == u[..n - 1];
      assert u[..n][n - 1] == u[n - 1] == md[a + (n - 1)];
    }
  }

  lemma WrittenIs(md: string, a: nat, u: string)
    requires a + |u| <= |md| && forall k :: 0 <= k < |u| ==> md[a + k] == u[k]
    ensures Written(md, a, a + |u|) == SanitizeAll(u)
  {
    WrittenPrefix(md, a, u, |u|);
    assert u[..|u|] == u;
  }

  lemma WrittenOne(md: string, a: nat)
    requires a < |md|
    ensures Written(md, a, a + 1) == Sanitize(md[a])
  {
    assert Written(md, a, a) == "";
  }

  // Plain text.

  /** The state after plain characters `a` to `i - 1`, starting from `s0`. */
  function Wrote(s0: Scan, md: string, a: nat, i: nat): Scan
    requires i <= |md|
  {
    s0.(line := s0.line + Written(md, a, i), asteriskOutNum := 0, flags := s0.flags.(wasImage := false))
  }

  lemma WroteSnoc(s0: Scan, md: string, a: nat, i: nat, j: nat)
    requires a <= i && j == i + 1 && j <= |md|
    ensures var t := Wrote(s0, md, a, i);
      t.(line := t.line + Sanitize(md[i]), asteriskOutNum := 0, flags := t.flags.(wasImage := false)) == Wrote(s0, md, a, j)
  {
    var w := Written(md, a, i);
    assert Written(md, a, j) == w + Sanitize(md[i]);
    assert s0.line + w + Sanitize(md[i]) == s0.line + (w + Sanitize(md[i]));
  }

  /** Characters `c0` to `b - 1` are plain text in the middle of the line, with `s0` the
      state from which the run of text started at `a`. */
  predicate TextRange(md: string, tr: seq<Scan>, p: nat, e: nat, s0: Scan, a: nat, c0: nat, b: nat)
  {
    InTrace(md, tr, p, e) && a <= c0 <= b <= e && md[b] != '['
    && p + s0.headingLevel < c0 && p + s0.horizontalNum < c0
    && (forall j :: c0 <= j < b ==> Plain(md[j]))
    && Idle(s0) && (s0.flags.inAsterisk || s0.asteriskOutNum == 0)
  }

  lemma TextInside(md: string, tr: seq<Scan>, p: nat, e: nat, s0: Scan, a: nat, c0: nat, b: nat, i: nat)
    requires TextRange(md, tr, p, e, s0, a, c0, b) && c0 <= i < b
    requires tr[i] == Wrote(s0, md, a, i)
    ensures Inside(md, i, tr[i])
  {
    InLineInside(md, p, e, i, tr[i]);
  }

  lemma TextStep(md: string, tr: seq<Scan>, p: nat, e: nat, s0: Scan, a: nat, c0: nat, b: nat, i: nat, j: nat)
    requires TextRange(md, tr, p, e, s0, a, c0, b) && c0 <= i < b && j == i + 1
    requires tr[i] == Wrote(s0, md, a, i) && Inside(md, i, tr[i])
    ensures tr[j] == tr[i].(line := tr[i].line + Sanitize(md[i]), asteriskOutNum := 0,
                            flags := tr[i].flags.(wasImage := false))
  {
    PlainAt(md, tr, i, j);
  }

  lemma TextNext(md: string, tr: seq<Scan>, p: nat, e: nat, s0: Scan, a: nat, c0: nat, b: nat, i: nat, j: nat)
    requires TextRange(md, tr, p, e, s0, a, c0, b) && c0 <= i < b && j == i + 1
    requires tr[i] == Wrote(s0, md, a, i)
    ensures tr[j] == Wrote(s0, md, a, j)
  {
    TextInside(md, tr, p, e, s0, a, c0, b, i);
    TextStep(md, tr, p, e, s0, a, c0, b, i, j);
    WroteSnoc(s0, md, a, i, j);
  }

  /** Plain characters are written one by one. */
  lemma {:induction false} TextTo(md: string, tr: seq<Scan>, p: nat, e: nat, s0: Scan, a: nat, c0: nat, b: nat, c: nat)
    requires TextRange(md, tr, p, e, s0, a, c0, b) && c0 <= c <= b
    requires tr[c0] == Wrote(s0, md, a, c0)
    ensures tr[c] == Wrote(s0, md, a, c)
    decreases c
  {
    if c > c0 {
      TextTo(md, tr, p, e, s0, a, c0, b, c - 1);
      TextNext(md, tr, p, e, s0, a, c0, b, c - 1, c);
    }
  }

  // Bold text: plain characters and lone `*`s.

  /** The state after characters `a` to `i - 1` of a bold's text, starting from `s0`. */
  function WroteBold(s0: Scan, md: string, a: nat, i: nat): Scan
    requires i <= |md|
  {
    s0.(line := s0.line + Written(md, a, i), asteriskOutNum := if a < i && md[i - 1] == '*' then 1 else 0,
        flags := s0.flags.(wasImage := false))
  }

  /** A character of bold text: plain, or a `*` that is not followed by another. */
  predicate BoldAt(md: string, j: nat)
  {
    j + 1 < |md| && (Plain(md[j]) || (md[j] == '*' && md[j + 1] != '*'))
  }

  predicate BoldRange(md: string, tr: seq<Scan>, p: nat, e: nat, s0: Scan, a: nat, b: nat)
  {
    InTrace(md, tr, p, e) && a <= b < e && md[b] != '['
    && p + s0.headingLevel < a && p + s0.horizontalNum < a
    && (forall j :: a <= j < b ==> BoldAt(md, j))
    && Idle(s0) && s0.flags.inAsterisk && s0.asteriskNum == 2 && s0.asteriskOutNum == 0
  }

  lemma BoldPlainSnoc(s0: Scan, md: string, a: nat, i: nat, j: nat)
    requires a <= i && j == i + 1 && j <= |md| && md[i] != '*'
    ensures var t := WroteBold(s0, md, a, i);
      t.(line := t.line + Sanitize(md[i]), asteriskOutNum := 0, flags := t.flags.(wasImage := false))
      == WroteBold(s0, md, a, j)
  {
    var w := Written(md, a, i);
    assert Written(md, a, j) == w + Sanitize(md[i]);
    assert s0.line + w + Sanitize(md[i]) == s0.line + (w + Sanitize(md[i]));
  }

  lemma BoldStarSnoc(s0: Scan, md: string, a: nat, i: nat, j: nat)
    requires a <= i && j == i + 1 && j <= |md| && md[i] == '*'
    ensures var t := WroteBold(s0, md, a, i);
      t.(line := t.line + "*", asteriskOutNum := 1, flags := t.flags.(wasImage := false))
      == WroteBold(s0, md, a, j)
  {
    var w := Written(md, a, i);
    assert Written(md, a, j) == w + "*";
    assert s0.line + w + "*" == s0.line + (w + "*");
  }

  lemma BoldPlainNext(md: string, tr: seq<Scan>, p: nat, e: nat, s0: Scan, a: nat, b: nat, i: nat, j: nat)
    requires BoldRange(md, tr, p, e, s0, a, b) && a <= i < b && j == i + 1 && Plain(md[i])
    requires tr[i] == WroteBold(s0, md, a, i)
    ensures tr[j] == WroteBold(s0, md, a, j)
  {
    assert i + 1 < b ==> BoldAt(md, i + 1);
    InLineInside(md, p, e, i, tr[i]);
    PlainAt(md, tr, i, j);
    BoldPlainSnoc(s0, md, a, i, j);
  }

  lemma BoldStarNext(md: string, tr: seq<Scan>, p: nat, e: nat, s0: Scan, a: nat, b: nat, i: nat, j: nat)
    requires BoldRange(md, tr, p, e, s0, a, b) && a <= i < b && j == i + 1 && md[i] == '*'
    requires tr[i] == WroteBold(s0, md, a, i)
    ensures tr[j] == WroteBold(s0, md, a, j)
  {
    assert a < i ==> BoldAt(md, i - 1);
    assert BoldAt(md, i);
    InLineInside(md, p, e, i, tr[i]);
    StarAt(md, tr, i, j);
    BoldStarSnoc(s0, md, a, i, j);
  }

  lemma {:induction false} BoldTo(md: string, tr: seq<Scan>, p: nat, e: nat, s0: Scan, a: nat, b: nat, c: nat)
    requires BoldRange(md, tr, p, e, s0, a, b) && a <= c <= b
    requires tr[a] == WroteBold(s0, md, a, a)
    ensures tr[c] == WroteBold(s0, md, a, c)
    decreases c
  {
    if c > a {
      BoldTo(md, tr, p, e, s0, a, b, c - 1);
      assert BoldAt(md, c - 1);
      if md[c - 1] == '*' {
        BoldStarNext(md, tr, p, e, s0, a, b, c - 1, c);
      } else {
        BoldPlainNext(md, tr, p, e, s0, a, b, c - 1, c);
      }
    }
  }

  // The alt text and the source of an image.

  function WroteAlt(s0: Scan, md: string, a: nat, i: nat): Scan
    requires i <= |md|
  {
    s0.(imageAlt := Some(Written(md, a, i)))
  }

  predicate AltRange(md: string, tr: seq<Scan>, p: nat, e: nat, s0: Scan, a: nat, b: nat)
  {
    InTrace(md, tr, p, e) && 0 < a <= b < e && md[a - 1] != ']' && md[b] != '['
    && p + s0.headingLevel < a && p + s0.horizontalNum < a
    && (forall j :: a <= j < b ==> AltChar(md[j]))
    && !s0.flags.backslashed && !s0.flags.inCode && s0.imageAlt.Some? && s0.imageSrc.None?
  }

  lemma AltNext(md: string, tr: seq<Scan>, p: nat, e: nat, s0: Scan, a: nat, b: nat, i: nat, j: nat)
    requires AltRange(md, tr, p, e, s0, a, b) && a <= i < b && j == i + 1
    requires tr[i] == WroteAlt(s0, md, a, i)
    ensures tr[j] == WroteAlt(s0, md, a, j)
  {
    assert a < i ==> AltChar(md[i - 1]);
    InLineInside(md, p, e, i, tr[i]);
    AltCharAt(md, tr, i, j);
  }

  lemma {:induction false} AltTo(md: string, tr: seq<Scan>, p: nat, e: nat, s0: Scan, a: nat, b: nat, c: nat)
    requires AltRange(md, tr, p, e, s0, a, b) && a <= c <= b
    requires tr[a] == WroteAlt(s0, md, a, a)
    ensures tr[c] == WroteAlt(s0, md, a, c)
    decreases c
  {
    if c > a {
      AltTo(md, tr, p, e, s0, a, b, c - 1);
      AltNext(md, tr, p, e, s0, a, b, c - 1, c);
    }
  }

  function WroteSrc(s0: Scan, md: string, a: nat, i: nat): Scan
    requires i <= |md|
  {
    s0.(imageSrc := Some(Written(md, a, i)))
  }

  predicate SrcRange(md: string, tr: seq<Scan>, p: nat, e: nat, s0: Scan, a: nat, b: nat)
  {
    InTrace(md, tr, p, e) && 0 < a <= b < e && md[a - 1] != ']' && md[b] != '['
    && p + s0.headingLevel < a && p + s0.horizontalNum < a
    && (forall j :: a <= j < b ==> SrcChar(md[j]))
    && !s0.flags.backslashed && !s0.flags.inCode && s0.imageAlt.Some? && s0.imageSrc.Some?
  }

  lemma SrcNext(md: string, tr: seq<Scan>, p: nat, e: nat, s0: Scan, a: nat, b: nat, i: nat, j: nat)
    requires SrcRange(md, tr, p, e, s0, a, b) && a <= i < b && j == i + 1
    requires tr[i] == WroteSrc(s0, md, a, i)
    ensures tr[j] == WroteSrc(s0, md, a, j)
  {
    assert a < i ==> SrcChar(md[i - 1]);
    InLineInside(md, p, e, i, tr[i]);
    SrcCharAt(md, tr, i, j);
  }

  lemma {:induction false} SrcTo(md: string, tr: seq<Scan>, p: nat, e: nat, s0: Scan, a: nat, b: nat, c: nat)
    requires SrcRange(md, tr, p, e, s0, a, b) && a <= c <= b
    requires tr[a] == WroteSrc(s0, md, a, a)
    ensures tr[c] == WroteSrc(s0, md, a, c)
    decreases c
  {
    if c > a {
      SrcTo(md, tr, p, e, s0, a, b, c - 1);
      SrcNext(md, tr, p, e, s0, a, b, c - 1, c);
    }
  }

  // The runs, from a state given as a variable.

  lemma TextRun(md: string, tr: seq<Scan>, p: nat, e: nat, s1: Scan, c0: nat, b: nat)
    requires TextRange(md, tr, p, e, s1, c0, c0, b) && tr[c0] == s1
    requires s1.asteriskOutNum == 0 && !s1.flags.wasImage
    ensures tr[b] == Wrote(s1, md, c0, b)
  {
    WroteNone(s1, md, c0);
    TextTo(md, tr, p, e, s1, c0, c0, b, b);
  }

  lemma BoldRun(md: string, tr: seq<Scan>, p: nat, e: nat, s1: Scan, c0: nat, b: nat)
    requires BoldRange(md, tr, p, e, s1, c0, b) && tr[c0] == s1 && !s1.flags.wasImage
    ensures tr[b] == WroteBold(s1, md, c0, b)
  {
    WroteBoldNone(s1, md, c0);
    BoldTo(md, tr, p, e, s1, c0, b, b);
  }

  lemma AltRun(md: string, tr: seq<Scan>, p: nat, e: nat, s1: Scan, c0: nat, b: nat)
    requires AltRange(md, tr, p, e, s1, c0, b) && tr[c0] == s1 && s1.imageAlt == Some("")
    ensures tr[b] == WroteAlt(s1, md, c0, b)
  {
    AltTo(md, tr, p, e, s1, c0, b, b);
  }

  lemma SrcRun(md: string, tr: seq<Scan>, p: nat, e: nat, s1: Scan, c0: nat, b: nat)
    requires SrcRange(md, tr, p, e, s1, c0, b) && tr[c0] == s1 && s1.imageSrc == Some("")
    ensures tr[b] == WroteSrc(s1, md, c0, b)
  {
    SrcTo(md, tr, p, e, s1, c0, b, b);
  }

  // Where the characters of each kind of span sit.

  lemma OccursOne(md: string, a: nat, c: char)
    requires Occurs(md, a, [c])
    ensures md[a] == c
  {
  }

  lemma OccursTwo(md: string, a: nat, c: char, d: char)
    requires Occurs(md, a, [c, d])
    ensures md[a] == c && md[a + 1] == d
  {
    assert [c, d][1..] == [d];
  }

  lemma ItalicLayout(md: string, a: nat, u: string)
    requires Occurs(md, a, "*" + u + "*")
    ensures md[a] == '*' && Occurs(md, a + 1, u) && md[a + 1 + |u|] == '*'
  {
    OccursSplit(md, a, "*" + u, "*");
    OccursSplit(md, a, "*", u);
    OccursOne(md, a, '*');
    OccursOne(md, a + 1 + |u|, '*');
  }

  lemma BoldLayout(md: string, a: nat, u: string)
    requires Occurs(md, a, "**" + u + "**")
    ensures md[a] == '*' && md[a + 1] == '*' && Occurs(md, a + 2, u)
    ensures md[a + 2 + |u|] == '*' && md[a + 3 + |u|] == '*'
  {
    OccursSplit(md, a, "**" + u, "**");
    OccursSplit(md, a, "**", u);
    OccursTwo(md, a, '*', '*');
    OccursTwo(md, a + 2 + |u|, '*', '*');
  }

  lemma EscapedLayout(md: string, a: nat, c: char)
    requires Occurs(md, a, "\\" + [c])
    ensures md[a] == '\\' && md[a + 1] == c
  {
    assert "\\" + [c] == ['\\', c];
    OccursTwo(md, a, '\\', c);
  }

  lemma ImageAltLayout(md: string, a: nat, alt: string)
    requires Occurs(md, a, "![" + alt + "](")
    ensures md[a] == '!' && md[a + 1] == '[' && Occurs(md, a + 2, alt)
    ensures md[a + 2 + |alt|] == ']' && md[a + 3 + |alt|] == '('
  {
    OccursSplit(md, a, "![" + alt, "](");
    OccursSplit(md, a, "![", alt);
    OccursTwo(md, a, '!', '[');
    OccursTwo(md, a + 2 + |alt|, ']', '(');
  }

  lemma ImageLayout(md: string, a: nat, alt: string, src: string)
    requires Occurs(md, a, "![" + alt + "](" + src + ")")
    ensures md[a] == '!' && md[a + 1] == '[' && Occurs(md, a + 2, alt)
    ensures md[a + 2 + |alt|] == ']' && md[a + 3 + |alt|] == '(' && Occurs(md, a + 4 + |alt|, src)
    ensures md[a + 4 + |alt| + |src|] == ')'
  {
    OccursSplit(md, a, "![" + alt + "](" + src, ")");
    OccursSplit(md, a, "![" + alt + "](", src);
    OccursOne(md, a + 4 + |alt| + |src|, ')');
    ImageAltLayout(md, a, alt);
  }

  lemma PlainFrom(md: string, a: nat, u: string)
    requires Occurs(md, a, u) && AllPlain(u)
    ensures forall j :: a <= j < a + |u| ==> Plain(md[j])
  {
    OccursChars(md, a, u);
    forall j | a <= j < a + |u|
      ensures Plain(md[j])
    {
      assert md[a + (j - a)] == u[j - a];
    }
  }

  lemma BoldFrom(md: string, a: nat, u: string)
    requires Occurs(md, a, u) && BoldText(u) && a + |u| < |md|
    ensures forall j :: a <= j < a + |u| ==> BoldAt(md, j)
  {
    OccursChars(md, a, u);
    forall j | a <= j < a + |u|
      ensures BoldAt(md, j)
    {
      assert md[a + (j - a)] == u[j - a];
      if j + 1 < a + |u| {
        assert LoneStar(u, j - a);
        assert md[a + (j + 1 - a)] == u[j + 1 - a];
      }
    }
  }

  lemma AltFrom(md: string, a: nat, u: string)
    requires Occurs(md, a, u) && forall k :: 0 <= k < |u| ==> AltChar(u[k])
    ensures forall j :: a <= j < a + |u| ==> AltChar(md[j])
  {
    OccursChars(md, a, u);
    forall j | a <= j < a + |u|
      ensures AltChar(md[j])
    {
      assert md[a + (j - a)] == u[j - a];
    }
  }

  lemma SrcFrom(md: string, a: nat, u: string)
    requires Occurs(md, a, u) && forall k :: 0 <= k < |u| ==> SrcChar(u[k])
    ensures forall j :: a <= j < a + |u| ==> SrcChar(md[j])
  {
    OccursChars(md, a, u);
    forall j | a <= j < a + |u|
      ensures SrcChar(md[j])
    {
      assert md[a + (j - a)] == u[j - a];
    }
  }

  // Whole spans.

  /** The number of characters a span takes in the Markdown. */
  function Width(sp: Span): nat
  {
    match sp
    case Text(u) => |u|
    case Italic(u) => |u| + 2
    case Bold(u) => |u| + 4
    case Escaped(_) => 2
    case Image(alt, src) => |alt| + |src| + 5
  }

  lemma WidthIs(sp: Span)
    ensures |SpanSource(sp)| == Width(sp)
  {
  }

  /** What the scanner sees of span `Text(u)` written at `a`, character by character. */
  predicate TextSeen(md: string, a: nat, u: string)
  {
    a + |u| < |md| && u != [] && md[a] == u[0] && (forall j :: a <= j < a + |u| ==> Plain(md[j]))
  }

  predicate ItalicSeen(md: string, a: nat, u: string)
  {
    a + |u| + 2 < |md| && u != [] && md[a] == '*' && md[a + 1 + |u|] == '*'
    && (forall j :: a + 1 <= j < a + 1 + |u| ==> Plain(md[j]))
  }

  predicate BoldSeen(md: string, a: nat, u: string)
  {
    a + |u| + 4 < |md| && u != [] && md[a] == '*' && md[a + 1] == '*' && md[a + 2 + |u|] == '*' && md[a + 3 + |u|] == '*'
    && md[a + 1 + |u|] != '*' && (forall j :: a + 2 <= j < a + 2 + |u| ==> BoldAt(md, j))
  }

  predicate EscapedSeen(md: string, a: nat, c: char)
  {
    a + 2 < |md| && md[a] == '\\' && md[a + 1] == c && c != '\n'
  }

  predicate ImageSeen(md: string, a: nat, alt: string, src: string)
  {
    a + |alt| + |src| + 5 < |md|
    && md[a] == '!' && md[a + 1] == '[' && md[a + 2 + |alt|] == ']' && md[a + 3 + |alt|] == '('
    && md[a + 4 + |alt| + |src|] == ')'
    && (forall j :: a + 2 <= j < a + 2 + |alt| ==> AltChar(md[j]))
    && (forall j :: a + 4 + |alt| <= j < a + 4 + |alt| + |src| ==> SrcChar(md[j]))
  }

  /** The characters of `u`, written in `md` from `a` on, come out as `SanitizeAll(u)`. */
  predicate WrittenAs(md: string, a: nat, u: string)
  {
    a + |u| <= |md| && Written(md, a, a + |u|) == SanitizeAll(u)
  }

  // The text of each span, from where it is written.

  lemma PlainPart(md: string, a: nat, u: string)
    requires Occurs(md, a, u) && AllPlain(u)
    ensures (forall j :: a <= j < a + |u| ==> Plain(md[j])) && WrittenAs(md, a, u) && (u != [] ==> md[a] == u[0])
  {
    OccursChars(md, a, u);
    PlainFrom(md, a, u);
    WrittenIs(md, a, u);
  }

  lemma BoldPart(md: string, a: nat, u: string)
    requires Occurs(md, a, u) && BoldText(u) && a + |u| < |md|
    ensures (forall j :: a <= j < a + |u| ==> BoldAt(md, j)) && md[a + |u| - 1] != '*' && WrittenAs(md, a, u)
  {
    BoldFrom(md, a, u);
    BoldAtLast(md, a, u);
    OccursChars(md, a, u);
    WrittenIs(md, a, u);
  }

  lemma AltPart(md: string, a: nat, u: string)
    requires Occurs(md, a, u) && forall k :: 0 <= k < |u| ==> AltChar(u[k])
    ensures (forall j :: a <= j < a + |u| ==> AltChar(md[j])) && WrittenAs(md, a, u)
  {
    AltFrom(md, a, u);
    OccursChars(md, a, u);
    WrittenIs(md, a, u);
  }

  lemma SrcPart(md: string, a: nat, u: string)
    requires Occurs(md, a, u) && forall k :: 0 <= k < |u| ==> SrcChar(u[k])
    ensures (forall j :: a <= j < a + |u| ==> SrcChar(md[j])) && WrittenAs(md, a, u)
  {
    SrcFrom(md, a, u);
    OccursChars(md, a, u);
    WrittenIs(md, a, u);
  }

  lemma BoldAtLast(md: string, a: nat, u: string)
    requires Occurs(md, a, u) && BoldText(u)
    ensures md[a + |u| - 1] != '*'
  {
    OccursChars(md, a, u);
    assert md[a + (|u| - 1)] == u[|u| - 1];
  }

  // What the scanner sees of each kind of span.

  lemma TextAt(md: string, a: nat, u: string)
    requires Occurs(md, a, u) && a + |u| < |md| && u != [] && AllPlain(u)
    ensures TextSeen(md, a, u) && WrittenAs(md, a, u)
  {
    PlainPart(md, a, u);
  }

  lemma ItalicAt(md: string, a: nat, u: string)
    requires Occurs(md, a, "*" + u + "*") && a + |u| + 2 < |md| && u != [] && AllPlain(u)
    ensures ItalicSeen(md, a, u) && WrittenAs(md, a + 1, u)
  {
    ItalicLayout(md, a, u);
    PlainPart(md, a + 1, u);
  }

  lemma BoldSpanAt(md: string, a: nat, u: string)
    requires Occurs(md, a, "**" + u + "**") && a + |u| + 4 < |md| && BoldText(u)
    ensures BoldSeen(md, a, u) && WrittenAs(md, a + 2, u)
  {
    BoldLayout(md, a, u);
    BoldPart(md, a + 2, u);
  }

  lemma EscapedSpanAt(md: string, a: nat, c: char)
    requires Occurs(md, a, "\\" + [c]) && a + 2 < |md| && c != '\n'
    ensures EscapedSeen(md, a, c)
  {
    EscapedLayout(md, a, c);
  }

  lemma ImageAt(md: string, a: nat, alt: string, src: string)
    requires Occurs(md, a, "![" + alt + "](" + src + ")") && a + |alt| + |src| + 5 < |md|
    requires (forall k :: 0 <= k < |alt| ==> AltChar(alt[k])) && (forall k :: 0 <= k < |src| ==> SrcChar(src[k]))
    ensures ImageSeen(md, a, alt, src) && WrittenAs(md, a + 2, alt) && WrittenAs(md, a + 4 + |alt|, src)
  {
    ImageLayout(md, a, alt, src);
    AltPart(md, a + 2, alt);
    SrcPart(md, a + 4 + |alt|, src);
  }

  /** The state once the `*` that opens an italic is read. */
  function ItalicOpen(s0: Scan): Scan
  {
    s0.(asteriskNum := 1, line := s0.line + "<i>", flags := s0.flags.(wasImage := false, inAsterisk := true))
  }

  /** The state after the first character of a span, read from `s`. */
  function HeadOf(sp: Span, s: Scan): Scan
  {
    match sp
    case Text(u) =>
      s.(line := s.line + (if u == [] then "" else Sanitize(u[0])), asteriskOutNum := 0,
         flags := s.flags.(wasImage := false))
    case Italic(_) => ItalicOpen(s)
    case Bold(_) => s.(asteriskNum := 1, flags := s.flags.(wasImage := false))
    case Escaped(_) => s.(flags := s.flags.(backslashed := true))
    case Image(_, _) => s
  }

  /** The state after a whole span read from `s`: its HTML is on the line. */
  function SpanEnd(sp: Span, s: Scan): Scan
  {
    s.(line := s.line + RenderSpan(sp), flags := s.flags.(wasImage := ImageAfter(sp, s.flags.wasImage)))
  }

  /** A span `w` characters wide is written at `a`, inside the line, and the state `s0`
      before it is between spans. */
  predicate Fits(md: string, tr: seq<Scan>, p: nat, e: nat, s0: Scan, a: nat, w: nat)
  {
    InTrace(md, tr, p, e) && a + w <= e && md[a + w] != '['
    && p + s0.headingLevel <= a && p + s0.horizontalNum <= a && BetweenSpans(s0)
  }

  // The states the scanner goes through, as plain values.

  lemma WroteNone(s: Scan, md: string, a: nat)
    requires a <= |md| && s.asteriskOutNum == 0 && !s.flags.wasImage
    ensures Wrote(s, md, a, a) == s
  {
    assert s.line + "" == s.line;
  }

  lemma TextHeadState(s0: Scan, md: string, a: nat, u: string)
    requires a < |md| && u != [] && md[a] == u[0]
    ensures HeadOf(Text(u), s0) == Wrote(s0, md, a, a + 1)
  {
    WrittenOne(md, a);
  }

  /** The state after a span whose HTML is `h`, read from `s0`; `img` says whether it was an image. */
  function Done(s0: Scan, h: string, img: bool): Scan
  {
    s0.(line := s0.line + h, flags := s0.flags.(wasImage := img))
  }

  lemma TextEndState(s0: Scan, md: string, a: nat, b: nat)
    requires b <= |md| && s0.asteriskOutNum == 0
    ensures Wrote(s0, md, a, b) == Done(s0, Written(md, a, b), false)
  {
  }

  lemma ItalicEndState(s0: Scan, md: string, a: nat, b: nat)
    requires b <= |md| && BetweenSpans(s0)
    ensures var t := Wrote(ItalicOpen(s0), md, a, b);
      t.(line := t.line + "</i>", asteriskNum := 0, asteriskOutNum := 0,
         flags := t.flags.(wasImage := false, inAsterisk := false)) == Done(s0, "<i>" + Written(md, a, b) + "</i>", false)
  {
    var w := Written(md, a, b);
    assert s0.line + "<i>" + w + "</i>" == s0.line + ("<i>" + w + "</i>");
  }

  /** The state once both `*`s that open a bold are read. */
  function BoldOpen(s0: Scan): Scan
  {
    s0.(asteriskNum := 2, line := s0.line + "<b>", flags := s0.flags.(wasImage := false, inAsterisk := true))
  }

  lemma WroteBoldNone(s: Scan, md: string, a: nat)
    requires a <= |md| && s.asteriskOutNum == 0 && !s.flags.wasImage
    ensures WroteBold(s, md, a, a) == s
  {
    assert s.line + "" == s.line;
  }

  lemma BoldEndState(s0: Scan, md: string, a: nat, b: nat)
    requires a < b <= |md| && md[b - 1] != '*' && BetweenSpans(s0)
    ensures WroteBold(BoldOpen(s0), md, a, b).asteriskOutNum == 0
    ensures var t := WroteBold(BoldOpen(s0), md, a, b);
      var t2 := t.(asteriskOutNum := 1, flags := t.flags.(wasImage := false));
      t2.(line := t2.line + "</b>", asteriskNum := 0, asteriskOutNum := 0,
          flags := t2.flags.(wasImage := false, inAsterisk := false)) == Done(s0, "<b>" + Written(md, a, b) + "</b>", false)
  {
    var w := Written(md, a, b);
    assert s0.line + "<b>" + w + "</b>" == s0.line + ("<b>" + w + "</b>");
  }

  lemma SrcEndState(s0: Scan, md: string, alt: string, a: nat, b: nat)
    requires b <= |md| && BetweenSpans(s0)
    ensures var t := WroteSrc(s0.(imageAlt := Some(alt), imageSrc := Some("")), md, a, b);
      t.(line := t.line + ImageTag(t.imageSrc.value, t.imageAlt.value),
         flags := t.flags.(wasImage := true), imageAlt := None, imageSrc := None)
      == Done(s0, ImageTag(Written(md, a, b), alt), true)
  {
  }

  // The ranges each kind of span reads.

  lemma TextRangeOf(md: string, tr: seq<Scan>, p: nat, e: nat, s0: Scan, a: nat, u: string)
    requires Fits(md, tr, p, e, s0, a, |u|) && TextSeen(md, a, u)
    ensures TextRange(md, tr, p, e, s0, a, a + 1, a + |u|)
  {
  }

  lemma ItalicRangeOf(md: string, tr: seq<Scan>, p: nat, e: nat, s0: Scan, a: nat, u: string)
    requires Fits(md, tr, p, e, s0, a, |u| + 2) && ItalicSeen(md, a, u)
    ensures TextRange(md, tr, p, e, ItalicOpen(s0), a + 1, a + 1, a + 1 + |u|)
  {
  }

  lemma BoldRangeOf(md: string, tr: seq<Scan>, p: nat, e: nat, s0: Scan, a: nat, u: string)
    requires Fits(md, tr, p, e, s0, a, |u| + 4) && BoldSeen(md, a, u)
    ensures BoldRange(md, tr, p, e, BoldOpen(s0), a + 2, a + 2 + |u|)
  {
  }

  lemma AltRangeOf(md: string, tr: seq<Scan>, p: nat, e: nat, s0: Scan, a: nat, alt: string, src: string)
    requires Fits(md, tr, p, e, s0, a, |alt| + |src| + 5) && ImageSeen(md, a, alt, src)
    ensures AltRange(md, tr, p, e, s0.(imageAlt := Some("")), a + 2, a + 2 + |alt|)
  {
  }

  lemma SrcRangeOf(md: string, tr: seq<Scan>, p: nat, e: nat, s0: Scan, a: nat, alt: string, src: string, w: string)
    requires Fits(md, tr, p, e, s0, a, |alt| + |src| + 5) && ImageSeen(md, a, alt, src)
    ensures SrcRange(md, tr, p, e, s0.(imageAlt := Some(w), imageSrc := Some("")), a + 4 + |alt|, a + 4 + |alt| + |src|)
  {
  }

  // Each kind of span, from its second character on.

  lemma TextFrom(md: string, tr: seq<Scan>, p: nat, e: nat, s0: Scan, a: nat, b: nat)
    requires TextRange(md, tr, p, e, s0, a, a + 1, b) && tr[a + 1] == Wrote(s0, md, a, a + 1)
    ensures tr[b] == Wrote(s0, md, a, b)
  {
    TextTo(md, tr, p, e, s0, a, a + 1, b, b);
  }

  lemma TextTail(md: string, tr: seq<Scan>, p: nat, e: nat, s0: Scan, a: nat, u: string)
    requires Fits(md, tr, p, e, s0, a, |u|) && TextSeen(md, a, u) && tr[a + 1] == HeadOf(Text(u), s0)
    ensures tr[a + |u|] == Done(s0, Written(md, a, a + |u|), false)
  {
    TextRangeOf(md, tr, p, e, s0, a, u);
    TextHeadState(s0, md, a, u);
    TextFrom(md, tr, p, e, s0, a, a + |u|);
    TextEndState(s0, md, a, a + |u|);
  }

  lemma ItalicText(md: string, tr: seq<Scan>, p: nat, e: nat, s0: Scan, a: nat, u: string)
    requires Fits(md, tr, p, e, s0, a, |u| + 2) && ItalicSeen(md, a, u) && tr[a + 1] == ItalicOpen(s0)
    ensures tr[a + 1 + |u|] == Wrote(ItalicOpen(s0), md, a + 1, a + 1 + |u|)
  {
    ItalicRangeOf(md, tr, p, e, s0, a, u);
    TextRun(md, tr, p, e, ItalicOpen(s0), a + 1, a + 1 + |u|);
  }

  /** The closing `*` of an italic, read from a state given as a variable. */
  lemma ItalicCloses(md: string, tr: seq<Scan>, p: nat, e: nat, t: Scan, b: nat)
    requires InTrace(md, tr, p, e) && p + t.headingLevel < b < e && p + t.horizontalNum < b && tr[b] == t
    requires md[b] == '*' && Idle(t) && t.flags.inAsterisk && t.asteriskNum == 1 && t.asteriskOutNum == 0
    ensures tr[b + 1] == t.(line := t.line + "</i>", asteriskNum := 0, asteriskOutNum := 0,
                            flags := t.flags.(wasImage := false, inAsterisk := false))
  {
    InLineInside(md, p, e, b, t);
    ItalicClosesAt(md, tr, b, b + 1);
  }

  lemma ItalicTail(md: string, tr: seq<Scan>, p: nat, e: nat, s0: Scan, a: nat, u: string)
    requires Fits(md, tr, p, e, s0, a, |u| + 2) && ItalicSeen(md, a, u) && tr[a + 1] == HeadOf(Italic(u), s0)
    ensures tr[a + 2 + |u|] == Done(s0, "<i>" + Written(md, a + 1, a + 1 + |u|) + "</i>", false)
  {
    ItalicText(md, tr, p, e, s0, a, u);
    ItalicCloses(md, tr, p, e, Wrote(ItalicOpen(s0), md, a + 1, a + 1 + |u|), a + 1 + |u|);
    ItalicEndState(s0, md, a + 1, a + 1 + |u|);
  }

  lemma BoldOpened(md: string, tr: seq<Scan>, p: nat, e: nat, s0: Scan, a: nat, u: string)
    requires Fits(md, tr, p, e, s0, a, |u| + 4) && BoldSeen(md, a, u) && tr[a + 1] == HeadOf(Bold(u), s0)
    ensures tr[a + 2] == BoldOpen(s0)
  {
    InLineInside(md, p, e, a + 1, tr[a + 1]);
    BoldSecondAt(md, tr, a + 1, a + 2);
  }

  lemma BoldBody(md: string, tr: seq<Scan>, p: nat, e: nat, s0: Scan, a: nat, u: string)
    requires Fits(md, tr, p, e, s0, a, |u| + 4) && BoldSeen(md, a, u) && tr[a + 1] == HeadOf(Bold(u), s0)
    ensures tr[a + 2 + |u|] == WroteBold(BoldOpen(s0), md, a + 2, a + 2 + |u|)
  {
    BoldOpened(md, tr, p, e, s0, a, u);
    BoldRangeOf(md, tr, p, e, s0, a, u);
    BoldRun(md, tr, p, e, BoldOpen(s0), a + 2, a + 2 + |u|);
  }

  /** The two closing `*`s of a bold, read from a state given as a variable. */
  lemma BoldCloses(md: string, tr: seq<Scan>, p: nat, e: nat, t: Scan, b: nat)
    requires InTrace(md, tr, p, e) && p + t.headingLevel < b && b + 1 < e && p + t.horizontalNum < b && tr[b] == t
    requires md[b] == '*' && md[b + 1] == '*' && Idle(t) && t.flags.inAsterisk && t.asteriskNum == 2 && t.asteriskOutNum == 0
    ensures var t2 := t.(asteriskOutNum := 1, flags := t.flags.(wasImage := false));
      tr[b + 2] == t2.(line := t2.line + "</b>", asteriskNum := 0, asteriskOutNum := 0,
                       flags := t2.flags.(wasImage := false, inAsterisk := false))
  {
    InLineInside(md, p, e, b, t);
    BoldClosesAt(md, tr, b, b + 1);
    InLineInside(md, p, e, b + 1, tr[b + 1]);
    BoldClosedAt(md, tr, b + 1, b + 2);
  }

  lemma BoldTail(md: string, tr: seq<Scan>, p: nat, e: nat, s0: Scan, a: nat, u: string)
    requires Fits(md, tr, p, e, s0, a, |u| + 4) && BoldSeen(md, a, u) && tr[a + 1] == HeadOf(Bold(u), s0)
    ensures tr[a + 4 + |u|] == Done(s0, "<b>" + Written(md, a + 2, a + 2 + |u|) + "</b>", false)
  {
    BoldBody(md, tr, p, e, s0, a, u);
    BoldEndState(s0, md, a + 2, a + 2 + |u|);
    BoldCloses(md, tr, p, e, WroteBold(BoldOpen(s0), md, a + 2, a + 2 + |u|), a + 2 + |u|);
  }

  lemma EscapedTail(md: string, tr: seq<Scan>, p: nat, e: nat, s0: Scan, a: nat, c: char)
    requires Fits(md, tr, p, e, s0, a, 2) && EscapedSeen(md, a, c) && tr[a + 1] == HeadOf(Escaped(c), s0)
    ensures tr[a + 2] == Done(s0, Sanitize(c), s0.flags.wasImage)
  {
    EscapedAt(md, tr, a + 1, a + 2);
  }

  lemma ImageOpens(md: string, tr: seq<Scan>, p: nat, e: nat, s0: Scan, a: nat, alt: string, src: string)
    requires Fits(md, tr, p, e, s0, a, |alt| + |src| + 5) && ImageSeen(md, a, alt, src) && tr[a + 1] == s0
    ensures tr[a + 2] == s0.(imageAlt := Some(""))
  {
    InLineInside(md, p, e, a + 1, s0);
    AltOpensAt(md, tr, a + 1, a + 2);
  }

  lemma ImageAlt(md: string, tr: seq<Scan>, p: nat, e: nat, s0: Scan, a: nat, alt: string, src: string)
    requires Fits(md, tr, p, e, s0, a, |alt| + |src| + 5) && ImageSeen(md, a, alt, src) && tr[a + 1] == s0
    ensures tr[a + 2 + |alt|] == s0.(imageAlt := Some(Written(md, a + 2, a + 2 + |alt|)))
  {
    ImageOpens(md, tr, p, e, s0, a, alt, src);
    AltRangeOf(md, tr, p, e, s0, a, alt, src);
    AltRun(md, tr, p, e, s0.(imageAlt := Some("")), a + 2, a + 2 + |alt|);
  }

  /** `](` between the alt text and the source, read from a state given as a variable. */
  lemma ImageMiddle(md: string, tr: seq<Scan>, p: nat, e: nat, t: Scan, b: nat)
    requires InTrace(md, tr, p, e) && p + t.headingLevel < b && b + 1 < e && p + t.horizontalNum < b && tr[b] == t
    requires md[b] == ']' && md[b + 1] == '(' && !t.flags.backslashed && !t.flags.inCode && t.imageAlt.Some?
    ensures tr[b + 2] == t.(imageSrc := Some(""))
  {
    InLineInside(md, p, e, b, t);
    AltClosesAt(md, tr, b, b + 1);
    InLineInside(md, p, e, b + 1, t);
    SrcOpensAt(md, tr, b + 1, b + 2);
  }

  lemma ImageSrcOpens(md: string, tr: seq<Scan>, p: nat, e: nat, s0: Scan, a: nat, alt: string, src: string)
    requires Fits(md, tr, p, e, s0, a, |alt| + |src| + 5) && ImageSeen(md, a, alt, src) && tr[a + 1] == s0
    ensures tr[a + 4 + |alt|] == s0.(imageAlt := Some(Written(md, a + 2, a + 2 + |alt|)), imageSrc := Some(""))
  {
    ImageAlt(md, tr, p, e, s0, a, alt, src);
    ImageMiddle(md, tr, p, e, s0.(imageAlt := Some(Written(md, a + 2, a + 2 + |alt|))), a + 2 + |alt|);
  }

  lemma ImageSrc(md: string, tr: seq<Scan>, p: nat, e: nat, s0: Scan, a: nat, alt: string, src: string)
    requires Fits(md, tr, p, e, s0, a, |alt| + |src| + 5) && ImageSeen(md, a, alt, src) && tr[a + 1] == s0
    ensures tr[a + 4 + |alt| + |src|] == WroteSrc(s0.(imageAlt := Some(Written(md, a + 2, a + 2 + |alt|)), imageSrc := Some("")),
                                                  md, a + 4 + |alt|, a + 4 + |alt| + |src|)
  {
    var w := Written(md, a + 2, a + 2 + |alt|);
    ImageSrcOpens(md, tr, p, e, s0, a, alt, src);
    SrcRangeOf(md, tr, p, e, s0, a, alt, src, w);
    SrcRun(md, tr, p, e, s0.(imageAlt := Some(w), imageSrc := Some("")), a + 4 + |alt|, a + 4 + |alt| + |src|);
  }

  /** The closing `)` of an image, read from a state given as a variable. */
  lemma ImageCloses(md: string, tr: seq<Scan>, p: nat, e: nat, t: Scan, b: nat)
    requires InTrace(md, tr, p, e) && p + t.headingLevel < b < e && p + t.horizontalNum < b && tr[b] == t
    requires md[b] == ')' && !t.flags.backslashed && !t.flags.inCode && t.imageAlt.Some? && t.imageSrc.Some?
    ensures tr[b + 1] == t.(line := t.line + ImageTag(t.imageSrc.value, t.imageAlt.value),
                            flags := t.flags.(wasImage := true), imageAlt := None, imageSrc := None)
  {
    InLineInside(md, p, e, b, t);
    ImageClosesAt(md, tr, b, b + 1);
  }

  lemma ImageClosing(md: string, tr: seq<Scan>, p: nat, e: nat, s0: Scan, a: nat, alt: string, src: string)
    requires Fits(md, tr, p, e, s0, a, |alt| + |src| + 5) && ImageSeen(md, a, alt, src) && tr[a + 1] == s0
    ensures var t := WroteSrc(s0.(imageAlt := Some(Written(md, a + 2, a + 2 + |alt|)), imageSrc := Some("")),
                              md, a + 4 + |alt|, a + 4 + |alt| + |src|);
      tr[a + 5 + |alt| + |src|] == t.(line := t.line + ImageTag(t.imageSrc.value, t.imageAlt.value),
                                      flags := t.flags.(wasImage := true), imageAlt := None, imageSrc := None)
  {
    var w := Written(md, a + 2, a + 2 + |alt|);
    var t := WroteSrc(s0.(imageAlt := Some(w), imageSrc := Some("")), md, a + 4 + |alt|, a + 4 + |alt| + |src|);
    ImageSrc(md, tr, p, e, s0, a, alt, src);
    ImageCloses(md, tr, p, e, t, a + 4 + |alt| + |src|);
  }

  lemma ImageTail(md: string, tr: seq<Scan>, p: nat, e: nat, s0: Scan, a: nat, alt: string, src: string)
    requires Fits(md, tr, p, e, s0, a, |alt| + |src| + 5) && ImageSeen(md, a, alt, src) && tr[a + 1] == HeadOf(Image(alt, src), s0)
    ensures tr[a + 5 + |alt| + |src|]
         == Done(s0, ImageTag(Written(md, a + 4 + |alt|, a + 4 + |alt| + |src|), Written(md, a + 2, a + 2 + |alt|)), true)
  {
    ImageClosing(md, tr, p, e, s0, a, alt, src);
    SrcEndState(s0, md, Written(md, a + 2, a + 2 + |alt|), a + 4 + |alt|, a + 4 + |alt| + |src|);
  }
}
