/** The scanner on whole documents: the Markdown text of a well-formed document
    is turned into the trimmed HTML of the reference rendering, one line after
    another. */
module MakotoDocument {
  import opened JsStrings
  import opened Makoto
  import opened MakotoBlocks
  import opened MakotoTrace
  import opened MakotoSpans
  import opened MakotoLines

  /** The text of a document with lines ends with the newline of its last line. */
  lemma {:induction false} SourceEnds(doc: seq<Block>)
    requires doc != []
    ensures Source(doc) != [] && Source(doc)[|Source(doc)| - 1] == '\n'
    decreases |doc|
  {
    var l := LineSource(doc[0]) + "\n";
    assert Source(doc) == l + Source(doc[1..]);
    if doc[1..] == [] {
      assert Source(doc) == l;
    } else {
      SourceEnds(doc[1..]);
    }
  }

  /** Where the first line of `rest` sits, ended at `e`, and where the others follow it. */
  lemma FirstLine(md: string, p: nat, e: nat, rest: seq<Block>)
    requires rest != [] && BlockOk(rest[0]) && Occurs(md, p, Source(rest)) && e == p + |LineSource(rest[0])|
    ensures BlockAt(md, p, e, rest[0]) && Occurs(md, e + 1, Source(rest[1..]))
    ensures e + 1 + |Source(rest[1..])| == p + |Source(rest)|
  {
    assert Source(rest) == LineSource(rest[0]) + "\n" + Source(rest[1..]);
    OccursLine(md, p, e, LineSource(rest[0]), Source(rest[1..]));
  }

  /** A line `l`, its newline at `e`, and the text `t` after it. */
  lemma OccursLine(md: string, p: nat, e: nat, l: string, t: string)
    requires Occurs(md, p, l + "\n" + t) && e == p + |l|
    ensures Occurs(md, p, l) && e < |md| && md[e] == '\n' && Occurs(md, e + 1, t)
  {
    OccursSplit(md, p, l + "\n", t);
    OccursSplit(md, p, l, "\n");
  }

  lemma DocTail(rest: seq<Block>)
    requires rest != [] && DocOk(rest)
    ensures BlockOk(rest[0]) && DocOk(rest[1..])
  {
    forall k | 0 <= k < |rest[1..]|
      ensures BlockOk(rest[1..][k])
    {
      assert rest[1..][k] == rest[k + 1];
    }
  }

  /** The first line of `rest`, when more lines follow it: its HTML is appended as it is. */
  lemma InnerLine(md: string, tr: seq<Scan>, p: nat, e: nat, rest: seq<Block>)
    requires IsTrace(md, tr) && md != [] && md[|md| - 1] == '\n' && rest != [] && rest[1..] != [] && DocOk(rest)
    requires p + |Source(rest)| == |md| && LineStart(md, p, tr[p]) && Occurs(md, p, Source(rest))
    requires e == p + |LineSource(rest[0])|
    ensures e + 1 + |Source(rest[1..])| == |md| && LineStart(md, e + 1, tr[e + 1])
    ensures DocOk(rest[1..]) && Occurs(md, e + 1, Source(rest[1..]))
    ensures tr[e + 1].html == tr[p].html + RenderBlock(rest[0], tr[p].headerNum)
    ensures tr[e + 1].headerNum == tr[p].headerNum + Headings(rest[0])
  {
    DocTail(rest);
    FirstLine(md, p, e, rest);
    AnyLine(md, tr, p, e, rest[0]);
    assert Source(rest[1..]) != [];
  }

  /** The last line of the input: the HTML is trimmed. */
  lemma LastLine(md: string, tr: seq<Scan>, p: nat, rest: seq<Block>)
    requires IsTrace(md, tr) && md != [] && md[|md| - 1] == '\n' && |rest| == 1 && DocOk(rest)
    requires p + |Source(rest)| == |md| && LineStart(md, p, tr[p]) && Occurs(md, p, Source(rest))
    ensures tr[|md|].html == Trim(tr[p].html + Render(rest, tr[p].headerNum))
  {
    var e := p + |LineSource(rest[0])|;
    DocTail(rest);
    FirstLine(md, p, e, rest);
    AnyLine(md, tr, p, e, rest[0]);
    LastDone(md, tr, p, e, rest[0]);
    RenderOne(rest, tr[p].headerNum);
  }

  lemma RenderOne(doc: seq<Block>, id: nat)
    requires |doc| == 1
    ensures Render(doc, id) == RenderBlock(doc[0], id)
  {
    assert doc[1..] == [];
  }

  lemma LastDone(md: string, tr: seq<Scan>, p: nat, e: nat, b: Block)
    requires LineDone(md, tr, p, e, b) && e + 1 == |md|
    ensures tr[|md|].html == Trim(tr[p].html + RenderBlock(b, tr[p].headerNum))
  {
  }

  /** The HTML of one more line in front of the rest, before trimming. */
  lemma Prepend(out: string, h0: string, h1: string, h: string, r: string, rr: string)
    requires out == Trim(h1 + rr) && h1 == h0 + h && r == h + rr
    ensures out == Trim(h0 + r)
  {
    assert h1 + rr == h0 + r;
  }

  /** The lines `rest` are written from the start of a line at `p` to the end of the input:
      the scanner ends with the trimmed HTML it had at `p` followed by theirs. */
  lemma {:induction false} DocFrom(md: string, tr: seq<Scan>, p: nat, rest: seq<Block>)
    requires IsTrace(md, tr) && md != [] && md[|md| - 1] == '\n' && rest != [] && DocOk(rest)
    requires p + |Source(rest)| == |md| && LineStart(md, p, tr[p]) && Occurs(md, p, Source(rest))
    ensures tr[|md|].html == Trim(tr[p].html + Render(rest, tr[p].headerNum))
    decreases |rest|
  {
    if |rest| == 1 {
      LastLine(md, tr, p, rest);
    } else {
      var e := p + |LineSource(rest[0])|;
      InnerLine(md, tr, p, e, rest);
      DocFrom(md, tr, e + 1, rest[1..]);
      Prepend(tr[|md|].html, tr[p].html, tr[e + 1].html, RenderBlock(rest[0], tr[p].headerNum),
              Render(rest, tr[p].headerNum), Render(rest[1..], tr[e + 1].headerNum));
    }
  }

  /** The HTML the scanner makes of a well-formed document is its reference rendering,
      headings numbered from 0, trimmed. */
  lemma ParseRendersDocument(doc: seq<Block>)
    requires DocOk(doc)
    ensures Parse(Source(doc)) == Trim(Render(doc, 0))
  {
    var md := Source(doc);
    if doc == [] {
      assert Parse(md) == "";
      assert Trim("") == "";
    } else {
      var tr := TraceOf(md);
      SourceEnds(doc);
      OccursRest(md, 0);
      assert md[0..] == md;
      DocFrom(md, tr, 0, doc);
      assert tr[0].html + Render(doc, 0) == Render(doc, 0);
    }
  }
}
