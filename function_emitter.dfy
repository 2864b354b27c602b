/** Emission of one binding function (`_generate_function`): the locals,
    the keyword list, the `PyArg_ParseTupleAndKeywords` call and the demo
    body that prints each argument. */
module FunctionEmitter {
  import opened Text
  import opened Signature
  import opened FormatSpec
  import opened Templates
  import opened Output

  /** The local of one parameter: `Py_None` when its name is in
      `__kwdefaults__` (the default's value is dropped), `NULL` otherwise. */
  function Declaration(p: Param): string
  {
    "    " + "PyObject *" + p.name + (if p.inKwDefaults then " = Py_None;\n" else " = NULL;\n")
  }

  function Declarations(ps: seq<Param>): seq<string>
  {
    seq(|ps|, i requires 0 <= i < |ps| => Declaration(ps[i]))
  }

  function Quoted(kws: seq<string>): seq<string>
  {
    seq(|kws|, i requires 0 <= i < |kws| => QuoteWrap(kws[i]))
  }

  /** The output references `&name`, one per parameter. */
  function Refs(ps: seq<Param>): seq<string>
  {
    seq(|ps|, i requires 0 <= i < |ps| => "&" + ps[i].name)
  }

  function KwArrayOpen(): string
  {
    "    " + "static " + "char " + "*kwlist[] " + "= {"
  }

  function ParseCallOpen(fmt: string): string
  {
    "    " + "if (!PyArg_" + "Parse" + "Tuple" + "AndKeywords" + "(args, " + "kwargs, " + QuoteWrap(fmt) + ", kwlist"
  }

  function RefsIndent(): string
  {
    seq(37, _ => ' ')
  }

  /** The keyword array as the source writes it: the quoted entries joined
      by commas, then `, NULL`. */
  function KwArrayLineAsWritten(kws: seq<string>): string
  {
    KwArrayOpen() + Join(", ", Quoted(kws)) + ", NULL};\n"
  }

  /** The parse call as the source writes it: the references always go on
      a second line after a comma. */
  function ParseCallAsWritten(fmt: string, ps: seq<Param>): seq<string>
  {
    [ParseCallOpen(fmt) + ",\n", RefsIndent() + Join(", ", Refs(ps)) + ")) {\n"]
  }

  /** The keyword array as evidently intended: the quoted entries and
      `NULL`, joined by commas (`{NULL}` when there are no parameters). */
  function KwArrayLine(kws: seq<string>): string
  {
    KwArrayOpen() + Join(", ", Quoted(kws) + ["NULL"]) + "};\n"
  }

  /** The parse call as evidently intended: as written, except that a
      function without parameters gets no dangling comma and no reference
      line. */
  function ParseCall(fmt: string, ps: seq<Param>): seq<string>
  {
    if ps == [] then [ParseCallOpen(fmt) + ")) {\n"] else ParseCallAsWritten(fmt, ps)
  }

  /** The demo lines that print one argument. */
  function PrintParam(name: string): seq<string>
  {
    ["    printf(\"" + name + ":\\n\");\n", "    " + "PyObject_" + "Print(" + name + ", stdout, " + "0);\n", "    " + "printf(\"\\n\");\n"]
  }

  function PrintChunks(ps: seq<Param>): seq<string>
    decreases |ps|
  {
    if ps == [] then [] else PrintChunks(ps[..|ps| - 1]) + PrintParam(ps[|ps| - 1].name)
  }

  function DemoComment(): string
  {
    "    " + "// This " + "demo code " + "just " + "prints " + "the " + "arguments " + "to " + "stdout.\n"
  }

  lemma {:induction false} PrintChunksSnoc(ps: seq<Param>, i: nat)
    requires i < |ps|
    ensures PrintChunks(ps[..i + 1]) == PrintChunks(ps[..i]) + PrintParam(ps[i].name)
  {
    assert ps[..i + 1][..i] == ps[..i];
  }

  /** The demo body has three lines per parameter, in parameter order: the
      lines at `3 * i` to `3 * i + 2` print parameter `i`'s name and its
      value. */
  lemma {:induction false} PrintChunksLayout(ps: seq<Param>)
    ensures |PrintChunks(ps)| == 3 * |ps|
    ensures forall i :: 0 <= i < |ps| ==> PrintChunks(ps)[3 * i..3 * i + 3] == PrintParam(ps[i].name)
    decreases |ps|
  {
    if ps != [] {
      var init := ps[..|ps| - 1];
      PrintChunksLayout(init);
      forall i | 0 <= i < |ps|
        ensures PrintChunks(ps)[3 * i..3 * i + 3] == PrintParam(ps[i].name)
      {
        if i < |init| {
          assert ps[i] == init[i];
          assert PrintChunks(ps)[3 * i..3 * i + 3] == PrintChunks(init)[3 * i..3 * i + 3];
        }
      }
    }
  }

  /** The failure branch of the parse call (return `NULL`), a blank line
      and the comment that opens the demo body. */
  function ParseFailure(): seq<string>
  {
    ["        " + "return " + "NULL;\n", "    }\n", "\n", DemoComment()]
  }

  /** Everything `_generate_function` writes for `f`. */
  function FunctionChunks(f: Func): seq<string>
  {
    [FuncStart(f.name)] + Declarations(f.params) + [KwArrayLineAsWritten(KwList(f.params))]
    + ParseCallAsWritten(FormatCode(f.params, f.name), f.params) + ParseFailure()
    + PrintChunks(f.params) + [FuncEnd()]
  }

  // ---------------------------------------------------------------------
  // Properties of the emitted function

  lemma {:induction false} DeclarationsSnoc(ps: seq<Param>, p: Param)
    ensures Declarations(ps + [p]) == Declarations(ps) + [Declaration(p)]
  {
    var qs := ps + [p];
    assert forall i :: 0 <= i < |ps| ==> qs[i] == ps[i];
  }

  /** One local per parameter, in declaration order, initialised to
      `Py_None` exactly when the parameter is in `__kwdefaults__`; and the
      parse call passes, at the same position, the address of that very
      local. */
  lemma {:induction false} LocalsMatchReferences(ps: seq<Param>)
    ensures |Declarations(ps)| == |Refs(ps)| == |ps|
    ensures forall i :: 0 <= i < |ps| ==>
      && Refs(ps)[i][0] == '&'
      && Declarations(ps)[i] == "    " + "PyObject *" + Refs(ps)[i][1..] + " = " + (if ps[i].inKwDefaults then "Py_None" else "NULL") + ";\n"
  {
    forall i | 0 <= i < |ps|
      ensures Refs(ps)[i][1..] == ps[i].name
    {
      assert ("&" + ps[i].name)[1..] == ps[i].name;
    }
  }

  // ---------------------------------------------------------------------
  // Zero-parameter functions

  /** The character just after the opening brace of the keyword array. */
  function FirstItemChar(line: string): char
    requires |line| > |KwArrayOpen()|
  {
    line[|KwArrayOpen()|]
  }

  /** The intended keyword array never opens with an empty item:
      its first item is the first quoted keyword, or `NULL` when there are
      no parameters. */
  lemma {:induction false} KwArrayFirstItem(kws: seq<string>)
    ensures |KwArrayLine(kws)| > |KwArrayOpen()|
    ensures FirstItemChar(KwArrayLine(kws)) == (if kws == [] then 'N' else '"')
    ensures FirstItemChar(KwArrayLine(kws)) != ','
    ensures OccursAt(if kws == [] then "NULL" else QuoteWrap(kws[0]), KwArrayLine(kws), |KwArrayOpen()|)
  {
    var items := Quoted(kws) + ["NULL"];
    JoinFirst(", ", items);
    JoinPrefix(", ", items);
    PrefixOccurs(KwArrayOpen(), Join(", ", items), items[0], "};\n");
  }

  /** A prefix of `j` occurs in `a + j + c` right after `a`. */
  lemma {:induction false} PrefixOccurs(a: string, j: string, t: string, c: string)
    requires |t| <= |j| && j[..|t|] == t
    ensures OccursAt(t, a + j + c, |a|)
  {
    assert (a + j + c)[|a|..|a| + |t|] == j[..|t|];
  }

  /** The first item opens the join. */
  lemma {:induction false} JoinPrefix(sep: string, xs: seq<string>)
    requires xs != []
    ensures |xs[0]| <= |Join(sep, xs)| && Join(sep, xs)[..|xs[0]|] == xs[0]
  {
    if |xs| > 1 {
      assert Join(sep, xs) == xs[0] + (sep + Join(sep, xs[1..]));
    }
  }

  lemma {:induction false} JoinFirst(sep: string, xs: seq<string>)
    requires xs != [] && xs[0] != []
    ensures |Join(sep, xs)| > 0 && Join(sep, xs)[0] == xs[0][0]
  {
  }

  /** As written, a function without parameters gets `{, NULL}`: an
      initializer whose first item is empty. */
  lemma {:induction false} KwArrayAsWrittenEmptyItem()
    ensures KwArrayLineAsWritten([]) == KwArrayOpen() + ", NULL};\n"
    ensures FirstItemChar(KwArrayLineAsWritten([])) == ','
  {
    assert Quoted([]) == [];
  }

  /** The intended keyword array is the one the source writes
      whenever the function has parameters. */
  lemma {:induction false} KwArrayAgreesWithSource(kws: seq<string>)
    requires kws != []
    ensures KwArrayLine(kws) == KwArrayLineAsWritten(kws)
  {
    JoinSnoc(", ", Quoted(kws), "NULL");
  }

  /** What follows the keyword-list argument of the parse call. */
  function AfterKwlist(fmt: string, lines: seq<string>): string
    requires |Concat(lines)| >= |ParseCallOpen(fmt)|
  {
    Concat(lines)[|ParseCallOpen(fmt)|..]
  }

  /** The intended parse call leaves no empty argument: after the
      keyword list comes either the closing parentheses or a comma, a line
      break and the first `&` reference. */
  lemma {:induction false} ParseCallNoEmptyArgument(fmt: string, ps: seq<Param>)
    ensures |Concat(ParseCall(fmt, ps))| > |ParseCallOpen(fmt)|
    ensures Concat(ParseCall(fmt, ps))[..|ParseCallOpen(fmt)|] == ParseCallOpen(fmt)
    ensures ps == [] ==> AfterKwlist(fmt, ParseCall(fmt, ps)) == ")) {\n"
    ensures ps != [] ==>
      var rest := AfterKwlist(fmt, ParseCall(fmt, ps));
      |rest| > 2 + |RefsIndent()| && rest[..2 + |RefsIndent()|] == ",\n" + RefsIndent() && rest[2 + |RefsIndent()|] == '&'
    ensures ps != [] ==> OccursAt("&" + ps[0].name, Concat(ParseCall(fmt, ps)), |ParseCallOpen(fmt)| + 2 + |RefsIndent()|)
  {
    var open := ParseCallOpen(fmt);
    if ps == [] {
      assert Concat(ParseCall(fmt, ps)) == open + ")) {\n";
    } else {
      var refs := Join(", ", Refs(ps));
      JoinFirst(", ", Refs(ps));
      JoinPrefix(", ", Refs(ps));
      var text := open + ",\n" + (RefsIndent() + refs + ")) {\n");
      ConcatPair(open + ",\n", RefsIndent() + refs + ")) {\n");
      assert text[|open|..] == ",\n" + RefsIndent() + refs + ")) {\n";
      AppendAssoc(open + ",\n", RefsIndent() + refs, ")) {\n");
      AppendAssoc(open + ",\n", RefsIndent(), refs);
      PrefixOccurs(open + ",\n" + RefsIndent(), refs, Refs(ps)[0], ")) {\n");
    }
  }

  /** As written, a function without parameters gets a parse call whose
      last argument is empty: the comma after the keyword list is followed
      only by blanks and the closing parentheses. */
  lemma {:induction false} ParseCallAsWrittenDanglingComma(fmt: string)
    ensures |Concat(ParseCallAsWritten(fmt, []))| >= |ParseCallOpen(fmt)|
    ensures AfterKwlist(fmt, ParseCallAsWritten(fmt, [])) == ",\n" + RefsIndent() + ")) {\n"
  {
    assert Refs([]) == [];
    assert Join(", ", Refs([])) == "";
    assert RefsIndent() + "" == RefsIndent();
    var open := ParseCallOpen(fmt);
    assert ParseCallAsWritten(fmt, []) == [open + ",\n", RefsIndent() + ")) {\n"];
    ConcatPair(open + ",\n", RefsIndent() + ")) {\n");
    var text := open + ",\n" + (RefsIndent() + ")) {\n");
    assert text[|open|..] == ",\n" + RefsIndent() + ")) {\n";
  }

  // ---------------------------------------------------------------------
  // The emitter

  /** The part of `_generate_function` that writes the keyword array and
      the parse call, from the finished format code and keyword list. */
  method WriteParseCall(fmt: string, kwlist: seq<string>, params: seq<Param>, out: Stream)
    modifies out
    ensures out.chunks == old(out.chunks) + [KwArrayLineAsWritten(kwlist)] + ParseCallAsWritten(fmt, params)
  {
    var kwlistStr := Join(", ", Quoted(kwlist));
    var paramRefs := Join(", ", Refs(params));
    out.Write(KwArrayOpen() + kwlistStr + ", NULL};\n");
    out.Write(ParseCallOpen(fmt) + ",\n");
    out.Write(RefsIndent() + paramRefs + ")) {\n");
  }

  /** The demo body of `_generate_function`: for each parameter in order,
      print its name and its value. */
  method WriteArgumentEcho(params: seq<Param>, out: Stream)
    modifies out
    ensures out.chunks == old(out.chunks) + PrintChunks(params)
  {
    for i := 0 to |params|
      invariant out.chunks == old(out.chunks) + PrintChunks(params[..i])
    {
      PrintChunksSnoc(params, i);
      var name := params[i].name;
      out.Write("    printf(\"" + name + ":\\n\");\n");
      out.Write("    " + "PyObject_" + "Print(" + name + ", stdout, " + "0);\n");
      out.Write("    " + "printf(\"\\n\");\n");
    }
    assert params[..|params|] == params;
  }

  /** One parameter's turn in the loop of `_generate_function`: its local,
      and its unit appended to the format units, preceded by the marker
      when it is the first parameter with a keyword default. */
  method WriteLocal(p: Param, fmt: string, hasDefault: bool, out: Stream) returns (fmt': string, hasDefault': bool)
    modifies out
    ensures out.chunks == old(out.chunks) + [Declaration(p)]
    ensures hasDefault' <==> hasDefault || p.inKwDefaults
    ensures p.inKwDefaults && !hasDefault ==> fmt' == fmt + "|$" + "O"
    ensures !(p.inKwDefaults && !hasDefault) ==> fmt' == fmt + "O"
  {
    fmt', hasDefault' := fmt, hasDefault;
    if p.inKwDefaults {
      out.Write("    " + "PyObject *" + p.name + " = Py_None;\n");
      if !hasDefault' {
        hasDefault' := true;
        fmt' := fmt' + "|$";
      }
    } else {
      out.Write("    " + "PyObject *" + p.name + " = NULL;\n");
    }
    fmt' := fmt' + "O";
  }

  /** The parameter loop of `_generate_function`: it writes one local per
      parameter while it builds the format units, with the one-shot
      `has_default` flag, and the keyword list. */
  method WriteLocals(params: seq<Param>, out: Stream) returns (fmt: string, kwlist: seq<string>)
    modifies out
    ensures fmt == FormatUnits(params)
    ensures kwlist == KwList(params)
    ensures out.chunks == old(out.chunks) + Declarations(params)
  {
    fmt := "";
    kwlist := [];
    var hasDefault := false;
    for i := 0 to |params|
      invariant fmt == FormatUnits(params[..i])
      invariant hasDefault <==> FirstKwDefault(params[..i]).Some?
      invariant kwlist == KwList(params[..i])
      invariant out.chunks == old(out.chunks) + Declarations(params[..i])
    {
      var p := params[i];
      assert params[..i + 1] == params[..i] + [p];
      FirstKwDefaultSnoc(params[..i], p);
      FormatUnitsSnoc(params[..i], p);
      KwListSnoc(params[..i], p);
      DeclarationsSnoc(params[..i], p);
      fmt, hasDefault := WriteLocal(p, fmt, hasDefault, out);
      if p.kind != PositionalOnly {
        kwlist := kwlist + [p.name];
      } else {
        kwlist := kwlist + [""];
      }
    }
    assert params[..|params|] == params;
  }

  /** Seven pieces appended to a prefix at once, or one after another. */
  lemma {:induction false} AppendSeven(pre: seq<string>, a: seq<string>, b: seq<string>, c: seq<string>, d: seq<string>,
                    e: seq<string>, f: seq<string>, g: seq<string>)
    ensures pre + (a + b + c + d + e + f + g) == pre + a + b + c + d + e + f + g
  {
  }

  /** The failure branch of the parse call, and the demo comment after it. */
  method WriteParseFailure(out: Stream)
    modifies out
    ensures out.chunks == old(out.chunks) + ParseFailure()
  {
    out.Write("        " + "return " + "NULL;\n");
    out.Write("    }\n");
    out.Write("\n");
    out.Write(DemoComment());
  }

  /** `_generate_function(func, out)`. */
  method GenerateFunction(f: Func, out: Stream)
    modifies out
    ensures out.chunks == old(out.chunks) + FunctionChunks(f)
  {
    var params := f.params;
    out.Write(FuncStart(f.name));
    var fmt, kwlist := WriteLocals(params, out);
    fmt := fmt + ":" + f.name;
    WriteParseCall(fmt, kwlist, params, out);
    WriteParseFailure(out);
    WriteArgumentEcho(params, out);
    out.Write(FuncEnd());
    AppendSeven(old(out.chunks), [FuncStart(f.name)], Declarations(params), [KwArrayLineAsWritten(KwList(params))],
      ParseCallAsWritten(FormatCode(params, f.name), params), ParseFailure(), PrintChunks(params), [FuncEnd()]);
  }
}
