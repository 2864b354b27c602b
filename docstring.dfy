/** Docstring emission (`_docstring_literal`): a missing docstring is
    `NULL`, a docstring of at most one line is an inline string literal,
    and a longer one becomes a `#define` with one literal segment per line,
    referred to by the macro's name. */
module Docstring {
  import opened Wrappers
  import opened Text
  import opened Output

  /** The macro a multi-line docstring of `owner` is bound to. */
  function MacroName(owner: string): string
  {
    Upper(owner) + "_DOCSTRING"
  }

  predicate IsMultiLine(d: string)
  {
    |SplitLines(d)| > 1
  }

  /** What `_docstring_literal` returns: the C expression that stands for
      the docstring at its point of use. */
  function DocRef(doc: Option<string>, owner: string): string
  {
    match doc
    case None => "NULL"
    case Some(d) => if IsMultiLine(d) then MacroName(owner) else QuoteWrap(d)
  }

  function DefineLine(macro: string): string
  {
    "\n#define " + macro + " \\\n"
  }

  /** One line of the macro body: `"<line>\n"` and a line continuation. */
  function Segment(line: string): string
  {
    "\"" + line + "\\n\"\\\n"
  }

  /** The empty literal that closes the macro body. */
  function Closing(): string
  {
    "\"\"\n"
  }

  function Segments(lines: seq<string>): seq<string>
  {
    seq(|lines|, i requires 0 <= i < |lines| => Segment(lines[i]))
  }

  lemma {:induction false} SegmentsSnoc(lines: seq<string>, i: nat)
    requires i < |lines|
    ensures Segments(lines[..i + 1]) == Segments(lines[..i]) + [Segment(lines[i])]
  {
  }

  /** What `_docstring_literal` writes to the stream. */
  function DocChunks(doc: Option<string>, owner: string): seq<string>
  {
    match doc
    case None => []
    case Some(d) =>
      if IsMultiLine(d) then [DefineLine(MacroName(owner))] + Segments(SplitLines(d)) + [Closing()] else []
  }

  /** The three cases, told apart by the docstring's text: nothing becomes
      `NULL`; text without a line feed before its last character (the
      empty text included) becomes that text in quotes and writes nothing;
      any other text becomes the owner's macro and writes its definition,
      one segment per line between the `#define` line and the closing
      literal. */
  lemma {:induction false} DocRefCases(doc: Option<string>, owner: string)
    ensures doc.None? ==> DocRef(doc, owner) == "NULL" && DocChunks(doc, owner) == []
    ensures doc.Some? && !(exists i :: 0 <= i < |doc.value| - 1 && doc.value[i] == '\n') ==>
      DocRef(doc, owner) == QuoteWrap(doc.value) && DocChunks(doc, owner) == []
    ensures doc.Some? && (exists i :: 0 <= i < |doc.value| - 1 && doc.value[i] == '\n') ==>
      var chunks := DocChunks(doc, owner);
      && DocRef(doc, owner) == Upper(owner) + "_DOCSTRING"
      && |chunks| == |SplitLines(doc.value)| + 2
      && chunks[0] == DefineLine(DocRef(doc, owner))
      && chunks[|chunks| - 1] == Closing()
  {
    if doc.Some? {
      ManyLinesIff(doc.value);
    }
  }

  // ---------------------------------------------------------------------
  // Reading a macro definition back

  /** The line a segment `"<line>\n"\` holds, if the text has that shape. */
  function SegmentLine(seg: string): Option<string>
  {
    if |seg| >= 6 && seg[0] == '"' && seg[|seg| - 5..] == "\\n\"\\\n" then Some(seg[1..|seg| - 5]) else None
  }

  function SegmentLines(segs: seq<string>): Option<seq<string>>
    decreases |segs|
  {
    if segs == [] then Some([])
    else
      match (SegmentLine(segs[0]), SegmentLines(segs[1..]))
      case (Some(l), Some(ls)) => Some([l] + ls)
      case _ => None
  }

  /** The lines spelled by a definition of `macro`: a `#define` line for
      that macro, segments, and the closing literal. */
  function ReadDefinition(chunks: seq<string>, macro: string): Option<seq<string>>
  {
    if |chunks| >= 2 && chunks[0] == DefineLine(macro) && chunks[|chunks| - 1] == Closing() then
      SegmentLines(chunks[1..|chunks| - 1])
    else None
  }

  lemma {:induction false} SegmentLinesOfSegments(lines: seq<string>)
    ensures SegmentLines(Segments(lines)) == Some(lines)
    decreases |lines|
  {
    if lines != [] {
      var seg := Segment(lines[0]);
      assert seg[|seg| - 5..] == "\\n\"\\\n";
      assert seg[1..|seg| - 5] == lines[0];
      assert Segments(lines)[1..] == Segments(lines[1..]);
      SegmentLinesOfSegments(lines[1..]);
      assert [lines[0]] + lines[1..] == lines;
    }
  }

  /** Round trip: the definition written for a multi-line docstring defines
      the macro that is returned, and reads back as the docstring's lines;
      joined with line feeds they are the docstring, and the literal's value
      (each line followed by a line feed) is the docstring plus one line
      feed. Normalised docstrings never end with a line feed. */
  lemma {:induction false} DefinitionRoundTrip(d: string, owner: string)
    requires IsMultiLine(d)
    ensures ReadDefinition(DocChunks(Some(d), owner), DocRef(Some(d), owner)) == Some(SplitLines(d))
    ensures !EndsWithNewline(d) ==> Join("\n", SplitLines(d)) == d
    ensures !EndsWithNewline(d) ==> Terminate(SplitLines(d)) == d + "\n"
  {
    var chunks := DocChunks(Some(d), owner);
    var segs := Segments(SplitLines(d));
    assert chunks[1..|chunks| - 1] == segs;
    SegmentLinesOfSegments(SplitLines(d));
    if !EndsWithNewline(d) {
      JoinSplitLines(d);
      TerminateSplitLines(d);
    }
  }

  // ---------------------------------------------------------------------
  // The emitter

  /** The loop of `_docstring_literal`: one segment per line, in order. */
  method WriteSegments(lines: seq<string>, out: Stream)
    modifies out
    ensures out.chunks == old(out.chunks) + Segments(lines)
  {
    for i := 0 to |lines|
      invariant out.chunks == old(out.chunks) + Segments(lines[..i])
    {
      SegmentsSnoc(lines, i);
      AppendAssoc(old(out.chunks), Segments(lines[..i]), [Segment(lines[i])]);
      out.Write("\"" + lines[i] + "\\n\"\\\n");
    }
    assert lines[..|lines|] == lines;
  }

  /** Three pieces appended to a prefix at once, or one after another. */
  lemma {:induction false} AppendThree(pre: seq<string>, a: seq<string>, b: seq<string>, c: seq<string>)
    ensures pre + (a + b + c) == pre + a + b + c
  {
  }

  /** `_docstring_literal(doc, name, out)`. */
  method DocstringLiteral(doc: Option<string>, owner: string, out: Stream) returns (ref: string)
    modifies out
    ensures ref == DocRef(doc, owner)
    ensures out.chunks == old(out.chunks) + DocChunks(doc, owner)
  {
    if doc.None? {
      return "NULL";
    }
    var d := doc.value;
    var lines := SplitLines(d);
    if |lines| > 1 {
      var macro := Upper(owner) + "_DOCSTRING";
      out.Write("\n#define " + macro + " \\\n");
      WriteSegments(lines, out);
      out.Write("\"\"\n");
      AppendThree(old(out.chunks), [DefineLine(macro)], Segments(lines), [Closing()]);
      ref := macro;
    } else {
      assert out.chunks == old(out.chunks) + [];
      ref := QuoteWrap(d);
    }
  }
}
