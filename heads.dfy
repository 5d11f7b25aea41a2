/** The first span of a line. Depending on what comes before it the scanner opens a
    paragraph (`<p>`), writes out the `#`s or `-`s it had been counting, or (for a
    line that starts with an image) writes nothing first; after that the span is
    read as in the middle of a line. */
module MakotoHeads {
  import opened JsStrings
  import opened Makoto
  import opened MakotoBlocks
  import opened MakotoSteps
  import opened MakotoTrace
  import opened MakotoSpans
  import opened MakotoRuns

  // Any span, once its first character is read.

  lemma FirstTextOf(md: string, tr: seq<Scan>, p: nat, e: nat, s0: Scan, a: nat, u: string, w: nat, t: string)
    requires w == |u| && t == u
    requires Fits(md, tr, p, e, s0, a, w) && Occurs(md, a, t) && u != [] && AllPlain(u)
    requires tr[a + 1] == HeadOf(Text(u), s0)
    ensures tr[a + w] == SpanEnd(Text(u), s0)
  {
    TextWhole(md, tr, p, e, s0, a, u);
  }

  lemma FirstText(md: string, tr: seq<Scan>, p: nat, e: nat, s0: Scan, a: nat, sp: Span)
    requires sp.Text? && Fits(md, tr, p, e, s0, a, Width(sp)) && Occurs(md, a, SpanSource(sp)) && SpanOk(sp)
    requires tr[a + 1] == HeadOf(sp, s0)
    ensures tr[a + Width(sp)] == SpanEnd(sp, s0)
  {
    FirstTextOf(md, tr, p, e, s0, a, sp.u, Width(sp), SpanSource(sp));
  }

  lemma FirstItalicOf(md: string, tr: seq<Scan>, p: nat, e: nat, s0: Scan, a: nat, u: string, w: nat, t: string)
    requires w == |u| + 2 && t == "*" + u + "*"
    requires Fits(md, tr, p, e, s0, a, w) && Occurs(md, a, t) && u != [] && AllPlain(u)
    requires tr[a + 1] == HeadOf(Italic(u), s0)
    ensures tr[a + w] == SpanEnd(Italic(u), s0)
  {
    ItalicWhole(md, tr, p, e, s0, a, u);
  }

  lemma FirstItalic(md: string, tr: seq<Scan>, p: nat, e: nat, s0: Scan, a: nat, sp: Span)
    requires sp.Italic? && Fits(md, tr, p, e, s0, a, Width(sp)) && Occurs(md, a, SpanSource(sp)) && SpanOk(sp)
    requires tr[a + 1] == HeadOf(sp, s0)
    ensures tr[a + Width(sp)] == SpanEnd(sp, s0)
  {
    FirstItalicOf(md, tr, p, e, s0, a, sp.u, Width(sp), SpanSource(sp));
  }

  lemma FirstBoldOf(md: string, tr: seq<Scan>, p: nat, e: nat, s0: Scan, a: nat, u: string, w: nat, t: string)
    requires w == |u| + 4 && t == "**" + u + "**"
    requires Fits(md, tr, p, e, s0, a, w) && Occurs(md, a, t) && BoldText(u)
    requires tr[a + 1] == HeadOf(Bold(u), s0)
    ensures tr[a + w] == SpanEnd(Bold(u), s0)
  {
    BoldWhole(md, tr, p, e, s0, a, u);
  }

  lemma FirstBold(md: string, tr: seq<Scan>, p: nat, e: nat, s0: Scan, a: nat, sp: Span)
    requires sp.Bold? && Fits(md, tr, p, e, s0, a, Width(sp)) && Occurs(md, a, SpanSource(sp)) && SpanOk(sp)
    requires tr[a + 1] == HeadOf(sp, s0)
    ensures tr[a + Width(sp)] == SpanEnd(sp, s0)
  {
    FirstBoldOf(md, tr, p, e, s0, a, sp.u, Width(sp), SpanSource(sp));
  }

  lemma FirstEscapedOf(md: string, tr: seq<Scan>, p: nat, e: nat, s0: Scan, a: nat, c: char, w: nat, t: string)
    requires w == 2 && t == "\\" + [c]
    requires Fits(md, tr, p, e, s0, a, w) && Occurs(md, a, t) && c != '\n'
    requires tr[a + 1] == HeadOf(Escaped(c), s0)
    ensures tr[a + w] == SpanEnd(Escaped(c), s0)
  {
    EscapedWhole(md, tr, p, e, s0, a, c);
  }

  lemma FirstEscaped(md: string, tr: seq<Scan>, p: nat, e: nat, s0: Scan, a: nat, sp: Span)
    requires sp.Escaped? && Fits(md, tr, p, e, s0, a, Width(sp)) && Occurs(md, a, SpanSource(sp)) && SpanOk(sp)
    requires tr[a + 1] == HeadOf(sp, s0)
    ensures tr[a + Width(sp)] == SpanEnd(sp, s0)
  {
    FirstEscapedOf(md, tr, p, e, s0, a, sp.c, Width(sp), SpanSource(sp));
  }

  lemma FirstImageOf(md: string, tr: seq<Scan>, p: nat, e: nat, s0: Scan, a: nat, alt: string, src: string, w: nat, t: string)
    requires w == |alt| + |src| + 5 && t == "![" + alt + "](" + src + ")"
    requires Fits(md, tr, p, e, s0, a, w) && Occurs(md, a, t) && (forall k :: 0 <= k < |alt| ==> AltChar(alt[k])) && (forall k :: 0 <= k < |src| ==> SrcChar(src[k]))
    requires tr[a + 1] == HeadOf(Image(alt, src), s0)
    ensures tr[a + w] == SpanEnd(Image(alt, src), s0)
  {
    ImageWhole(md, tr, p, e, s0, a, alt, src);
  }

  lemma FirstImage(md: string, tr: seq<Scan>, p: nat, e: nat, s0: Scan, a: nat, sp: Span)
    requires sp.Image? && Fits(md, tr, p, e, s0, a, Width(sp)) && Occurs(md, a, SpanSource(sp)) && SpanOk(sp)
    requires tr[a + 1] == HeadOf(sp, s0)
    ensures tr[a + Width(sp)] == SpanEnd(sp, s0)
  {
    FirstImageOf(md, tr, p, e, s0, a, sp.alt, sp.src, Width(sp), SpanSource(sp));
  }

  /** Whatever state `s0` the span starts from, once its first character leaves the
      state the span's head calls for, the whole span appends its reference HTML. */
  lemma FirstSpan(md: string, tr: seq<Scan>, p: nat, e: nat, s0: Scan, a: nat, sp: Span)
    requires Fits(md, tr, p, e, s0, a, Width(sp)) && Occurs(md, a, SpanSource(sp)) && SpanOk(sp)
    requires tr[a + 1] == HeadOf(sp, s0)
    ensures tr[a + Width(sp)] == SpanEnd(sp, s0)
  {
    if sp.Text? {
      FirstText(md, tr, p, e, s0, a, sp);
    } else if sp.Italic? {
      FirstItalic(md, tr, p, e, s0, a, sp);
    } else if sp.Bold? {
      FirstBold(md, tr, p, e, s0, a, sp);
    } else if sp.Escaped? {
      FirstEscaped(md, tr, p, e, s0, a, sp);
    } else {
      FirstImage(md, tr, p, e, s0, a, sp);
    }
  }

  // A span that starts a paragraph.

  /** The state a paragraph's first span is read from: `<p>` is on the line. */
  function FreshOpen(s: Scan): Scan
  {
    s.(line := s.line + "<p>")
  }

  /** A span `w` characters wide starts the line at `p`. */
  predicate FreshAt(md: string, tr: seq<Scan>, p: nat, e: nat, w: nat)
  {
    InTrace(md, tr, p, e) && p + w <= e && md[p + w] != '[' && LineHead(md, p, tr[p])
  }

  lemma FreshTextHead(md: string, tr: seq<Scan>, p: nat, e: nat, u: string)
    requires FreshAt(md, tr, p, e, |u|) && TextSeen(md, p, u) && u[0] != '#' && u[0] != '-'
    ensures tr[p + 1] == HeadOf(Text(u), FreshOpen(tr[p]))
  {
    if |u| > 1 {
      assert Plain(md[p + 1]);
    }
    FreshPlainAt(md, tr, p, p + 1);
  }

  lemma FreshItalicHead(md: string, tr: seq<Scan>, p: nat, e: nat, u: string)
    requires FreshAt(md, tr, p, e, |u| + 2) && ItalicSeen(md, p, u)
    ensures tr[p + 1] == HeadOf(Italic(u), FreshOpen(tr[p]))
  {
    assert Plain(md[p + 1]);
    FreshItalicAt(md, tr, p, p + 1);
  }

  lemma FreshBoldHead(md: string, tr: seq<Scan>, p: nat, e: nat, u: string)
    requires FreshAt(md, tr, p, e, |u| + 4) && BoldSeen(md, p, u)
    ensures tr[p + 1] == HeadOf(Bold(u), FreshOpen(tr[p]))
  {
    FreshBoldAt(md, tr, p, p + 1);
  }

  lemma FreshEscapedHead(md: string, tr: seq<Scan>, p: nat, e: nat, c: char)
    requires FreshAt(md, tr, p, e, 2) && EscapedSeen(md, p, c)
    ensures tr[p + 1] == HeadOf(Escaped(c), FreshOpen(tr[p]))
  {
    EscapeAt(md, tr, p, p + 1);
  }

  lemma FreshTextStart(md: string, tr: seq<Scan>, p: nat, e: nat, sp: Span)
    requires sp.Text? && FreshAt(md, tr, p, e, Width(sp)) && Occurs(md, p, SpanSource(sp)) && SpanOk(sp) && StartsParagraph(sp)
    ensures tr[p + 1] == HeadOf(sp, FreshOpen(tr[p]))
  {
    TextAt(md, p, sp.u);
    FreshTextHead(md, tr, p, e, sp.u);
  }

  lemma FreshItalicStart(md: string, tr: seq<Scan>, p: nat, e: nat, sp: Span)
    requires sp.Italic? && FreshAt(md, tr, p, e, Width(sp)) && Occurs(md, p, SpanSource(sp)) && SpanOk(sp) && StartsParagraph(sp)
    ensures tr[p + 1] == HeadOf(sp, FreshOpen(tr[p]))
  {
    ItalicAt(md, p, sp.u);
    FreshItalicHead(md, tr, p, e, sp.u);
  }

  lemma FreshBoldStart(md: string, tr: seq<Scan>, p: nat, e: nat, sp: Span)
    requires sp.Bold? && FreshAt(md, tr, p, e, Width(sp)) && Occurs(md, p, SpanSource(sp)) && SpanOk(sp) && StartsParagraph(sp)
    ensures tr[p + 1] == HeadOf(sp, FreshOpen(tr[p]))
  {
    BoldSpanAt(md, p, sp.u);
    FreshBoldHead(md, tr, p, e, sp.u);
  }

  lemma FreshEscapedStart(md: string, tr: seq<Scan>, p: nat, e: nat, sp: Span)
    requires sp.Escaped? && FreshAt(md, tr, p, e, Width(sp)) && Occurs(md, p, SpanSource(sp)) && SpanOk(sp) && StartsParagraph(sp)
    ensures tr[p + 1] == HeadOf(sp, FreshOpen(tr[p]))
  {
    EscapedSpanAt(md, p, sp.c);
    FreshEscapedHead(md, tr, p, e, sp.c);
  }

  lemma FreshStart(md: string, tr: seq<Scan>, p: nat, e: nat, sp: Span)
    requires FreshAt(md, tr, p, e, Width(sp)) && Occurs(md, p, SpanSource(sp)) && SpanOk(sp) && StartsParagraph(sp)
    ensures tr[p + 1] == HeadOf(sp, FreshOpen(tr[p]))
  {
    if sp.Text? {
      FreshTextStart(md, tr, p, e, sp);
    } else if sp.Italic? {
      FreshItalicStart(md, tr, p, e, sp);
    } else if sp.Bold? {
      FreshBoldStart(md, tr, p, e, sp);
    } else {
      FreshEscapedStart(md, tr, p, e, sp);
    }
  }

  lemma FreshFits(md: string, tr: seq<Scan>, p: nat, e: nat, w: nat)
    requires FreshAt(md, tr, p, e, w)
    ensures Fits(md, tr, p, e, FreshOpen(tr[p]), p, w)
  {
  }

  /** Any span a paragraph may start with: `<p>` is written first. */
  lemma FreshSpan(md: string, tr: seq<Scan>, p: nat, e: nat, sp: Span)
    requires FreshAt(md, tr, p, e, Width(sp)) && Occurs(md, p, SpanSource(sp)) && SpanOk(sp) && StartsParagraph(sp)
    ensures tr[p + Width(sp)] == SpanEnd(sp, FreshOpen(tr[p]))
  {
    FreshStart(md, tr, p, e, sp);
    FreshFits(md, tr, p, e, Width(sp));
    FirstSpan(md, tr, p, e, FreshOpen(tr[p]), p, sp);
  }

  // A span right after `#`s that make no heading.

  /** A span `w` characters wide starts at `a`, right after the `#`s that start the line at `p`. */
  predicate HashesAt(md: string, tr: seq<Scan>, p: nat, e: nat, a: nat, w: nat)
  {
    InTrace(md, tr, p, e) && p <= a && a + w <= e && md[a + w] != '[' && AfterHashes(md, a, tr[a])
  }

  lemma HashesTextHead(md: string, tr: seq<Scan>, p: nat, e: nat, a: nat, u: string)
    requires HashesAt(md, tr, p, e, a, |u|) && TextSeen(md, a, u)
    ensures tr[a + 1] == HeadOf(Text(u), HashesText(tr[a]))
  {
    if |u| > 1 {
      assert Plain(md[a + 1]);
    }
    HashesPlainAt(md, tr, a, a + 1);
  }

  lemma HashesItalicHead(md: string, tr: seq<Scan>, p: nat, e: nat, a: nat, u: string)
    requires HashesAt(md, tr, p, e, a, |u| + 2) && ItalicSeen(md, a, u)
    ensures tr[a + 1] == HeadOf(Italic(u), HashesText(tr[a]))
  {
    assert Plain(md[a + 1]);
    HashesItalicAt(md, tr, a, a + 1);
  }

  lemma HashesBoldHead(md: string, tr: seq<Scan>, p: nat, e: nat, a: nat, u: string)
    requires HashesAt(md, tr, p, e, a, |u| + 4) && BoldSeen(md, a, u)
    ensures tr[a + 1] == HeadOf(Bold(u), HashesText(tr[a]))
  {
    HashesBoldAt(md, tr, a, a + 1);
  }

  lemma HashesTextStart(md: string, tr: seq<Scan>, p: nat, e: nat, a: nat, sp: Span)
    requires sp.Text? && HashesAt(md, tr, p, e, a, Width(sp)) && Occurs(md, a, SpanSource(sp)) && SpanOk(sp) && FollowsHashes(sp)
    ensures tr[a + 1] == HeadOf(sp, HashesText(tr[a]))
  {
    TextAt(md, a, sp.u);
    HashesTextHead(md, tr, p, e, a, sp.u);
  }

  lemma HashesItalicStart(md: string, tr: seq<Scan>, p: nat, e: nat, a: nat, sp: Span)
    requires sp.Italic? && HashesAt(md, tr, p, e, a, Width(sp)) && Occurs(md, a, SpanSource(sp)) && SpanOk(sp) && FollowsHashes(sp)
    ensures tr[a + 1] == HeadOf(sp, HashesText(tr[a]))
  {
    ItalicAt(md, a, sp.u);
    HashesItalicHead(md, tr, p, e, a, sp.u);
  }

  lemma HashesBoldStart(md: string, tr: seq<Scan>, p: nat, e: nat, a: nat, sp: Span)
    requires sp.Bold? && HashesAt(md, tr, p, e, a, Width(sp)) && Occurs(md, a, SpanSource(sp)) && SpanOk(sp) && FollowsHashes(sp)
    ensures tr[a + 1] == HeadOf(sp, HashesText(tr[a]))
  {
    BoldSpanAt(md, a, sp.u);
    HashesBoldHead(md, tr, p, e, a, sp.u);
  }

  lemma HashesStart(md: string, tr: seq<Scan>, p: nat, e: nat, a: nat, sp: Span)
    requires HashesAt(md, tr, p, e, a, Width(sp)) && Occurs(md, a, SpanSource(sp)) && SpanOk(sp) && FollowsHashes(sp)
    ensures tr[a + 1] == HeadOf(sp, HashesText(tr[a]))
  {
    if sp.Text? {
      HashesTextStart(md, tr, p, e, a, sp);
    } else if sp.Italic? {
      HashesItalicStart(md, tr, p, e, a, sp);
    } else {
      HashesBoldStart(md, tr, p, e, a, sp);
    }
  }

  lemma HashesFits(md: string, tr: seq<Scan>, p: nat, e: nat, a: nat, w: nat)
    requires HashesAt(md, tr, p, e, a, w)
    ensures Fits(md, tr, p, e, HashesText(tr[a]), a, w)
  {
  }

  /** Any span that may follow `#`s that make no heading: the `#`s are written out first. */
  lemma HashesSpan(md: string, tr: seq<Scan>, p: nat, e: nat, a: nat, sp: Span)
    requires HashesAt(md, tr, p, e, a, Width(sp)) && Occurs(md, a, SpanSource(sp)) && SpanOk(sp) && FollowsHashes(sp)
    ensures tr[a + Width(sp)] == SpanEnd(sp, HashesText(tr[a]))
  {
    HashesStart(md, tr, p, e, a, sp);
    HashesFits(md, tr, p, e, a, Width(sp));
    FirstSpan(md, tr, p, e, HashesText(tr[a]), a, sp);
  }

  // A span right after one or two `-`s.

  /** A span `w` characters wide starts at `a`, right after the `-`s that start the line at `p`. */
  predicate DashesAt(md: string, tr: seq<Scan>, p: nat, e: nat, a: nat, w: nat)
  {
    InTrace(md, tr, p, e) && a + w <= e && md[a + w] != '[' && AfterDashes(md, a, tr[a])
    && p + tr[a].horizontalNum <= a
  }

  lemma DashesTextHead(md: string, tr: seq<Scan>, p: nat, e: nat, a: nat, u: string)
    requires DashesAt(md, tr, p, e, a, |u|) && TextSeen(md, a, u)
    ensures tr[a + 1] == HeadOf(Text(u), DashesText(tr[a]))
  {
    if |u| > 1 {
      assert Plain(md[a + 1]);
    }
    DashesPlainAt(md, tr, a, a + 1);
  }

  lemma DashesItalicHead(md: string, tr: seq<Scan>, p: nat, e: nat, a: nat, u: string)
    requires DashesAt(md, tr, p, e, a, |u| + 2) && ItalicSeen(md, a, u)
    ensures tr[a + 1] == HeadOf(Italic(u), DashesText(tr[a]))
  {
    assert Plain(md[a + 1]);
    DashesItalicAt(md, tr, a, a + 1);
  }

  lemma DashesBoldHead(md: string, tr: seq<Scan>, p: nat, e: nat, a: nat, u: string)
    requires DashesAt(md, tr, p, e, a, |u| + 4) && BoldSeen(md, a, u)
    ensures tr[a + 1] == HeadOf(Bold(u), DashesText(tr[a]))
  {
    DashesBoldAt(md, tr, a, a + 1);
  }

  lemma DashesTextStart(md: string, tr: seq<Scan>, p: nat, e: nat, a: nat, sp: Span)
    requires sp.Text? && DashesAt(md, tr, p, e, a, Width(sp)) && Occurs(md, a, SpanSource(sp)) && SpanOk(sp) && FollowsDashes(sp)
    ensures tr[a + 1] == HeadOf(sp, DashesText(tr[a]))
  {
    TextAt(md, a, sp.u);
    DashesTextHead(md, tr, p, e, a, sp.u);
  }

  lemma DashesItalicStart(md: string, tr: seq<Scan>, p: nat, e: nat, a: nat, sp: Span)
    requires sp.Italic? && DashesAt(md, tr, p, e, a, Width(sp)) && Occurs(md, a, SpanSource(sp)) && SpanOk(sp) && FollowsDashes(sp)
    ensures tr[a + 1] == HeadOf(sp, DashesText(tr[a]))
  {
    ItalicAt(md, a, sp.u);
    DashesItalicHead(md, tr, p, e, a, sp.u);
  }

  lemma DashesBoldStart(md: string, tr: seq<Scan>, p: nat, e: nat, a: nat, sp: Span)
    requires sp.Bold? && DashesAt(md, tr, p, e, a, Width(sp)) && Occurs(md, a, SpanSource(sp)) && SpanOk(sp) && FollowsDashes(sp)
    ensures tr[a + 1] == HeadOf(sp, DashesText(tr[a]))
  {
    BoldSpanAt(md, a, sp.u);
    DashesBoldHead(md, tr, p, e, a, sp.u);
  }

  lemma DashesStart(md: string, tr: seq<Scan>, p: nat, e: nat, a: nat, sp: Span)
    requires DashesAt(md, tr, p, e, a, Width(sp)) && Occurs(md, a, SpanSource(sp)) && SpanOk(sp) && FollowsDashes(sp)
    ensures tr[a + 1] == HeadOf(sp, DashesText(tr[a]))
  {
    if sp.Text? {
      DashesTextStart(md, tr, p, e, a, sp);
    } else if sp.Italic? {
      DashesItalicStart(md, tr, p, e, a, sp);
    } else {
      DashesBoldStart(md, tr, p, e, a, sp);
    }
  }

  lemma DashesFits(md: string, tr: seq<Scan>, p: nat, e: nat, a: nat, w: nat)
    requires DashesAt(md, tr, p, e, a, w)
    ensures Fits(md, tr, p, e, DashesText(tr[a]), a, w)
  {
  }

  /** Any span that may follow one or two `-`s: `<p>` and the `-`s are written first. */
  lemma DashesSpan(md: string, tr: seq<Scan>, p: nat, e: nat, a: nat, sp: Span)
    requires DashesAt(md, tr, p, e, a, Width(sp)) && Occurs(md, a, SpanSource(sp)) && SpanOk(sp) && FollowsDashes(sp)
    ensures tr[a + Width(sp)] == SpanEnd(sp, DashesText(tr[a]))
  {
    DashesStart(md, tr, p, e, a, sp);
    DashesFits(md, tr, p, e, a, Width(sp));
    FirstSpan(md, tr, p, e, DashesText(tr[a]), a, sp);
  }

  // An image that starts the line.

  lemma LeadImageFits(md: string, tr: seq<Scan>, p: nat, e: nat, w: nat)
    requires FreshAt(md, tr, p, e, w)
    ensures Fits(md, tr, p, e, tr[p], p, w)
  {
  }

  /** An image that starts the line is read from the state at the start of the line:
      no `<p>` is written. */
  lemma LeadImage(md: string, tr: seq<Scan>, p: nat, e: nat, sp: Span)
    requires sp.Image? && FreshAt(md, tr, p, e, Width(sp)) && Occurs(md, p, SpanSource(sp)) && SpanOk(sp)
    ensures tr[p + Width(sp)] == SpanEnd(sp, tr[p])
  {
    ImageAt(md, p, sp.alt, sp.src);
    FreshBangAt(md, tr, p, p + 1);
    LeadImageFits(md, tr, p, e, Width(sp));
    FirstSpan(md, tr, p, e, tr[p], p, sp);
  }
}
