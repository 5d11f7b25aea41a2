/** Whole spans and runs of spans: whichever way a line starts, each well-formed
    span leaves the scanner's state with the span's reference HTML appended. */
module MakotoRuns {
  import opened JsStrings
  import opened Makoto
  import opened MakotoBlocks
  import opened MakotoSteps
  import opened MakotoTrace
  import opened MakotoSpans

  // From what the scanner writes to the reference HTML.

  lemma TextDone(s0: Scan, md: string, a: nat, u: string)
    requires WrittenAs(md, a, u)
    ensures Done(s0, Written(md, a, a + |u|), false) == SpanEnd(Text(u), s0)
  {
  }

  lemma ItalicDone(s0: Scan, md: string, a: nat, u: string)
    requires WrittenAs(md, a + 1, u)
    ensures Done(s0, "<i>" + Written(md, a + 1, a + 1 + |u|) + "</i>", false) == SpanEnd(Italic(u), s0)
  {
  }

  lemma BoldDone(s0: Scan, md: string, a: nat, u: string)
    requires WrittenAs(md, a + 2, u)
    ensures Done(s0, "<b>" + Written(md, a + 2, a + 2 + |u|) + "</b>", false) == SpanEnd(Bold(u), s0)
  {
  }

  lemma ImageDone(s0: Scan, md: string, a: nat, alt: string, src: string)
    requires WrittenAs(md, a + 2, alt) && WrittenAs(md, a + 4 + |alt|, src)
    ensures Done(s0, ImageTag(Written(md, a + 4 + |alt|, a + 4 + |alt| + |src|), Written(md, a + 2, a + 2 + |alt|)), true)
         == SpanEnd(Image(alt, src), s0)
  {
  }

  // Each kind of span, from its second character on, as reference HTML.

  lemma TextWhole(md: string, tr: seq<Scan>, p: nat, e: nat, s0: Scan, a: nat, u: string)
    requires Fits(md, tr, p, e, s0, a, |u|) && Occurs(md, a, u) && u != [] && AllPlain(u)
    requires tr[a + 1] == HeadOf(Text(u), s0)
    ensures tr[a + |u|] == SpanEnd(Text(u), s0)
  {
    TextAt(md, a, u);
    TextTail(md, tr, p, e, s0, a, u);
    TextDone(s0, md, a, u);
  }

  lemma ItalicWhole(md: string, tr: seq<Scan>, p: nat, e: nat, s0: Scan, a: nat, u: string)
    requires Fits(md, tr, p, e, s0, a, |u| + 2) && Occurs(md, a, "*" + u + "*") && u != [] && AllPlain(u)
    requires tr[a + 1] == HeadOf(Italic(u), s0)
    ensures tr[a + 2 + |u|] == SpanEnd(Italic(u), s0)
  {
    ItalicAt(md, a, u);
    ItalicTail(md, tr, p, e, s0, a, u);
    ItalicDone(s0, md, a, u);
  }

  lemma BoldWhole(md: string, tr: seq<Scan>, p: nat, e: nat, s0: Scan, a: nat, u: string)
    requires Fits(md, tr, p, e, s0, a, |u| + 4) && Occurs(md, a, "**" + u + "**") && BoldText(u)
    requires tr[a + 1] == HeadOf(Bold(u), s0)
    ensures tr[a + 4 + |u|] == SpanEnd(Bold(u), s0)
  {
    BoldSpanAt(md, a, u);
    BoldTail(md, tr, p, e, s0, a, u);
    BoldDone(s0, md, a, u);
  }

  lemma EscapedWhole(md: string, tr: seq<Scan>, p: nat, e: nat, s0: Scan, a: nat, c: char)
    requires Fits(md, tr, p, e, s0, a, 2) && Occurs(md, a, "\\" + [c]) && c != '\n'
    requires tr[a + 1] == HeadOf(Escaped(c), s0)
    ensures tr[a + 2] == SpanEnd(Escaped(c), s0)
  {
    EscapedSpanAt(md, a, c);
    EscapedTail(md, tr, p, e, s0, a, c);
  }

  lemma ImageWhole(md: string, tr: seq<Scan>, p: nat, e: nat, s0: Scan, a: nat, alt: string, src: string)
    requires Fits(md, tr, p, e, s0, a, |alt| + |src| + 5) && Occurs(md, a, "![" + alt + "](" + src + ")")
    requires (forall k :: 0 <= k < |alt| ==> AltChar(alt[k])) && (forall k :: 0 <= k < |src| ==> SrcChar(src[k]))
    requires tr[a + 1] == HeadOf(Image(alt, src), s0)
    ensures tr[a + 5 + |alt| + |src|] == SpanEnd(Image(alt, src), s0)
  {
    ImageAt(md, a, alt, src);
    ImageTail(md, tr, p, e, s0, a, alt, src);
    ImageDone(s0, md, a, alt, src);
  }

  // The first character of a span in the middle of a line.

  /** A span starts at `a`, after something else on the line, from state `s0`. */
  predicate MidAt(md: string, tr: seq<Scan>, p: nat, e: nat, s0: Scan, a: nat, w: nat)
  {
    Fits(md, tr, p, e, s0, a, w) && p + s0.headingLevel < a && p + s0.horizontalNum < a && tr[a] == s0
  }

  lemma MidTextHead(md: string, tr: seq<Scan>, p: nat, e: nat, s0: Scan, a: nat, u: string)
    requires MidAt(md, tr, p, e, s0, a, |u|) && TextSeen(md, a, u)
    ensures tr[a + 1] == HeadOf(Text(u), s0)
  {
    InLineInside(md, p, e, a, s0);
    if |u| > 1 {
      assert Plain(md[a + 1]);
    }
    PlainAt(md, tr, a, a + 1);
  }

  lemma MidItalicHead(md: string, tr: seq<Scan>, p: nat, e: nat, s0: Scan, a: nat, u: string)
    requires MidAt(md, tr, p, e, s0, a, |u| + 2) && ItalicSeen(md, a, u)
    ensures tr[a + 1] == HeadOf(Italic(u), s0)
  {
    InLineInside(md, p, e, a, s0);
    assert Plain(md[a + 1]);
    ItalicOpensAt(md, tr, a, a + 1);
  }

  lemma MidBoldHead(md: string, tr: seq<Scan>, p: nat, e: nat, s0: Scan, a: nat, u: string)
    requires MidAt(md, tr, p, e, s0, a, |u| + 4) && BoldSeen(md, a, u)
    ensures tr[a + 1] == HeadOf(Bold(u), s0)
  {
    InLineInside(md, p, e, a, s0);
    BoldOpensAt(md, tr, a, a + 1);
  }

  lemma MidEscapedHead(md: string, tr: seq<Scan>, p: nat, e: nat, s0: Scan, a: nat, c: char)
    requires MidAt(md, tr, p, e, s0, a, 2) && EscapedSeen(md, a, c)
    ensures tr[a + 1] == HeadOf(Escaped(c), s0)
  {
    assert md[a - 1] != '\n';
    EscapeAt(md, tr, a, a + 1);
  }

  lemma MidImageHead(md: string, tr: seq<Scan>, p: nat, e: nat, s0: Scan, a: nat, alt: string, src: string)
    requires MidAt(md, tr, p, e, s0, a, |alt| + |src| + 5) && ImageSeen(md, a, alt, src)
    ensures tr[a + 1] == HeadOf(Image(alt, src), s0)
  {
    InLineInside(md, p, e, a, s0);
    BangAt(md, tr, a, a + 1);
  }

  // Each kind of span in the middle of a line; the span is given whole.

  lemma MidTextOf(md: string, tr: seq<Scan>, p: nat, e: nat, s0: Scan, a: nat, u: string, w: nat, t: string)
    requires w == |u| && t == u
    requires MidAt(md, tr, p, e, s0, a, w) && Occurs(md, a, t) && u != [] && AllPlain(u)
    ensures tr[a + w] == SpanEnd(Text(u), s0)
  {
    TextAt(md, a, u);
    MidTextHead(md, tr, p, e, s0, a, u);
    TextWhole(md, tr, p, e, s0, a, u);
  }

  lemma MidItalicOf(md: string, tr: seq<Scan>, p: nat, e: nat, s0: Scan, a: nat, u: string, w: nat, t: string)
    requires w == |u| + 2 && t == "*" + u + "*"
    requires MidAt(md, tr, p, e, s0, a, w) && Occurs(md, a, t) && u != [] && AllPlain(u)
    ensures tr[a + w] == SpanEnd(Italic(u), s0)
  {
    ItalicAt(md, a, u);
    MidItalicHead(md, tr, p, e, s0, a, u);
    ItalicWhole(md, tr, p, e, s0, a, u);
  }

  lemma MidBoldOf(md: string, tr: seq<Scan>, p: nat, e: nat, s0: Scan, a: nat, u: string, w: nat, t: string)
    requires w == |u| + 4 && t == "**" + u + "**"
    requires MidAt(md, tr, p, e, s0, a, w) && Occurs(md, a, t) && BoldText(u)
    ensures tr[a + w] == SpanEnd(Bold(u), s0)
  {
    BoldSpanAt(md, a, u);
    MidBoldHead(md, tr, p, e, s0, a, u);
    BoldWhole(md, tr, p, e, s0, a, u);
  }

  lemma MidEscapedOf(md: string, tr: seq<Scan>, p: nat, e: nat, s0: Scan, a: nat, c: char, w: nat, t: string)
    requires w == 2 && t == "\\" + [c]
    requires MidAt(md, tr, p, e, s0, a, w) && Occurs(md, a, t) && c != '\n'
    ensures tr[a + w] == SpanEnd(Escaped(c), s0)
  {
    EscapedSpanAt(md, a, c);
    MidEscapedHead(md, tr, p, e, s0, a, c);
    EscapedWhole(md, tr, p, e, s0, a, c);
  }

  lemma MidImageOf(md: string, tr: seq<Scan>, p: nat, e: nat, s0: Scan, a: nat, alt: string, src: string, w: nat, t: string)
    requires w == |alt| + |src| + 5 && t == "![" + alt + "](" + src + ")"
    requires MidAt(md, tr, p, e, s0, a, w) && Occurs(md, a, t)
    requires (forall k :: 0 <= k < |alt| ==> AltChar(alt[k])) && (forall k :: 0 <= k < |src| ==> SrcChar(src[k]))
    ensures tr[a + w] == SpanEnd(Image(alt, src), s0)
  {
    ImageAt(md, a, alt, src);
    MidImageHead(md, tr, p, e, s0, a, alt, src);
    ImageWhole(md, tr, p, e, s0, a, alt, src);
  }

  // The same, with the span given whole.

  lemma MidText(md: string, tr: seq<Scan>, p: nat, e: nat, s0: Scan, a: nat, sp: Span)
    requires sp.Text? && MidAt(md, tr, p, e, s0, a, Width(sp)) && Occurs(md, a, SpanSource(sp)) && SpanOk(sp)
    ensures tr[a + Width(sp)] == SpanEnd(sp, s0)
  {
    MidTextOf(md, tr, p, e, s0, a, sp.u, Width(sp), SpanSource(sp));
  }

  lemma MidItalic(md: string, tr: seq<Scan>, p: nat, e: nat, s0: Scan, a: nat, sp: Span)
    requires sp.Italic? && MidAt(md, tr, p, e, s0, a, Width(sp)) && Occurs(md, a, SpanSource(sp)) && SpanOk(sp)
    ensures tr[a + Width(sp)] == SpanEnd(sp, s0)
  {
    MidItalicOf(md, tr, p, e, s0, a, sp.u, Width(sp), SpanSource(sp));
  }

  lemma MidBold(md: string, tr: seq<Scan>, p: nat, e: nat, s0: Scan, a: nat, sp: Span)
    requires sp.Bold? && MidAt(md, tr, p, e, s0, a, Width(sp)) && Occurs(md, a, SpanSource(sp)) && SpanOk(sp)
    ensures tr[a + Width(sp)] == SpanEnd(sp, s0)
  {
    MidBoldOf(md, tr, p, e, s0, a, sp.u, Width(sp), SpanSource(sp));
  }

  lemma MidEscaped(md: string, tr: seq<Scan>, p: nat, e: nat, s0: Scan, a: nat, sp: Span)
    requires sp.Escaped? && MidAt(md, tr, p, e, s0, a, Width(sp)) && Occurs(md, a, SpanSource(sp)) && SpanOk(sp)
    ensures tr[a + Width(sp)] == SpanEnd(sp, s0)
  {
    MidEscapedOf(md, tr, p, e, s0, a, sp.c, Width(sp), SpanSource(sp));
  }

  lemma MidImage(md: string, tr: seq<Scan>, p: nat, e: nat, s0: Scan, a: nat, sp: Span)
    requires sp.Image? && MidAt(md, tr, p, e, s0, a, Width(sp)) && Occurs(md, a, SpanSource(sp)) && SpanOk(sp)
    ensures tr[a + Width(sp)] == SpanEnd(sp, s0)
  {
    MidImageOf(md, tr, p, e, s0, a, sp.alt, sp.src, Width(sp), SpanSource(sp));
  }

  /** Any well-formed span in the middle of a line. */
  lemma MidSpan(md: string, tr: seq<Scan>, p: nat, e: nat, s0: Scan, a: nat, sp: Span)
    requires MidAt(md, tr, p, e, s0, a, Width(sp)) && Occurs(md, a, SpanSource(sp)) && SpanOk(sp)
    ensures tr[a + Width(sp)] == SpanEnd(sp, s0)
  {
    if sp.Text? {
      MidText(md, tr, p, e, s0, a, sp);
    } else if sp.Italic? {
      MidItalic(md, tr, p, e, s0, a, sp);
    } else if sp.Bold? {
      MidBold(md, tr, p, e, s0, a, sp);
    } else if sp.Escaped? {
      MidEscaped(md, tr, p, e, s0, a, sp);
    } else {
      MidImage(md, tr, p, e, s0, a, sp);
    }
  }

  // Runs of spans.

  /** The state after the spans `sps`, read from `s`. */
  function SpansEnd(sps: seq<Span>, s: Scan): Scan
  {
    s.(line := s.line + RenderSpans(sps), flags := s.flags.(wasImage := EndsWithImage(sps, s.flags.wasImage)))
  }

  lemma SpansEndCons(sps: seq<Span>, s: Scan)
    requires sps != []
    ensures SpansEnd(sps, s) == SpansEnd(sps[1..], SpanEnd(sps[0], s))
  {
    assert s.line + RenderSpans(sps) == s.line + RenderSpan(sps[0]) + RenderSpans(sps[1..]);
  }

  /** The Markdown of a span is never empty, and never starts with `[` or a newline. */
  lemma SourceHead(sp: Span)
    requires SpanOk(sp)
    ensures |SpanSource(sp)| == Width(sp) > 0 && SpanSource(sp)[0] != '[' && SpanSource(sp)[0] != '\n'
  {
    match sp
    case Text(u) => assert Plain(u[0]);
    case _ =>
  }

  lemma SpansSourceCons(sps: seq<Span>)
    requires sps != []
    ensures SpansSource(sps) == SpanSource(sps[0]) + SpansSource(sps[1..])
  {
  }

  /** Where the first span of a run and the rest of the run are written. */
  lemma SourceCons(md: string, a: nat, sps: seq<Span>)
    requires sps != [] && Occurs(md, a, SpansSource(sps)) && SpansOk(sps)
    ensures Occurs(md, a, SpanSource(sps[0])) && Occurs(md, a + Width(sps[0]), SpansSource(sps[1..]))
    ensures Width(sps[0]) + |SpansSource(sps[1..])| == |SpansSource(sps)|
  {
    var x, y := SpanSource(sps[0]), SpansSource(sps[1..]);
    SpansSourceCons(sps);
    SourceHead(sps[0]);
    OccursSplit(md, a, x, y);
  }

  /** The spans `sps` are written one after the other from `a` to the end of the line at `e`. */
  predicate RunAt(md: string, e: nat, a: nat, sps: seq<Span>)
    decreases |sps|
  {
    if sps == [] then a == e
    else
      SpanOk(sps[0]) && a + Width(sps[0]) <= e && Occurs(md, a, SpanSource(sps[0]))
      && RunAt(md, e, a + Width(sps[0]), sps[1..])
  }

  /** The Markdown of a run of spans written at `a` and ending at `e` is such a run. */
  lemma {:induction false} RunAtOf(md: string, e: nat, a: nat, sps: seq<Span>)
    requires Occurs(md, a, SpansSource(sps)) && a + |SpansSource(sps)| == e && SpansOk(sps)
    ensures RunAt(md, e, a, sps)
    decreases |sps|
  {
    if sps != [] {
      SourceCons(md, a, sps);
      RunAtOf(md, e, a + Width(sps[0]), sps[1..]);
    }
  }

  /** What follows a span in a run: more spans, or the end of the line. */
  lemma RunNext(md: string, p: nat, e: nat, b: nat, rest: seq<Span>)
    requires InLine(md, p, e) && RunAt(md, e, b, rest)
    ensures b <= e && md[b] != '['
  {
    if rest != [] {
      SourceHead(rest[0]);
      assert md[b] == SpanSource(rest[0])[0];
    }
  }

  /** A span leaves the state between spans, with the same marks counted. */
  lemma SpanEndKeeps(sp: Span, s: Scan)
    requires BetweenSpans(s)
    ensures BetweenSpans(SpanEnd(sp, s))
    ensures SpanEnd(sp, s).headingLevel == s.headingLevel && SpanEnd(sp, s).horizontalNum == s.horizontalNum
  {
  }

  /** The spans from `a` to the end of the line at `e`, read from `s0`. */
  predicate SpansAt(md: string, tr: seq<Scan>, p: nat, e: nat, s0: Scan, a: nat, sps: seq<Span>)
  {
    InTrace(md, tr, p, e) && RunAt(md, e, a, sps) && a <= e
    && tr[a] == s0 && BetweenSpans(s0) && p + s0.headingLevel < a && p + s0.horizontalNum < a
  }

  lemma MidStep(md: string, tr: seq<Scan>, p: nat, e: nat, s0: Scan, a: nat, sp: Span, w: nat)
    requires InTrace(md, tr, p, e) && w == Width(sp) && a + w <= e && md[a + w] != '['
    requires tr[a] == s0 && BetweenSpans(s0) && p + s0.headingLevel < a && p + s0.horizontalNum < a
    requires Occurs(md, a, SpanSource(sp)) && SpanOk(sp)
    ensures tr[a + w] == SpanEnd(sp, s0)
  {
    MidSpan(md, tr, p, e, s0, a, sp);
  }

  lemma SpansStep(md: string, tr: seq<Scan>, p: nat, e: nat, s0: Scan, a: nat, sps: seq<Span>)
    requires SpansAt(md, tr, p, e, s0, a, sps) && sps != []
    ensures SpansAt(md, tr, p, e, SpanEnd(sps[0], s0), a + Width(sps[0]), sps[1..])
  {
    RunNext(md, p, e, a + Width(sps[0]), sps[1..]);
    MidStep(md, tr, p, e, s0, a, sps[0], Width(sps[0]));
    SpanEndKeeps(sps[0], s0);
  }

  /** A run of spans in the middle of a line appends its reference HTML. */
  lemma {:induction false} MidSpans(md: string, tr: seq<Scan>, p: nat, e: nat, s0: Scan, a: nat, sps: seq<Span>)
    requires SpansAt(md, tr, p, e, s0, a, sps)
    ensures tr[e] == SpansEnd(sps, s0)
    decreases |sps|
  {
    if sps == [] {
      assert s0.line + "" == s0.line;
    } else {
      SpansStep(md, tr, p, e, s0, a, sps);
      MidSpans(md, tr, p, e, SpanEnd(sps[0], s0), a + Width(sps[0]), sps[1..]);
      SpansEndCons(sps, s0);
    }
  }
}
