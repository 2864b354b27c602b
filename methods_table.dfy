/** The methods table (`_generate_methods_table`): first every function's
    docstring definition, then one `PyMethodDef` row per function in input
    order, each naming the function and its own docstring reference, then
    exactly one sentinel row. */
module MethodsTable {
  import opened Text
  import opened Signature
  import opened Templates
  import opened Docstring
  import opened Output

  /** What the first loop writes: the docstring definitions, in order. */
  function DocDefs(fs: seq<Func>): seq<string>
    decreases |fs|
  {
    if fs == [] then [] else DocDefs(fs[..|fs| - 1]) + DocChunks(fs[|fs| - 1].doc, fs[|fs| - 1].name)
  }

  /** What the first loop collects: each function's docstring reference. */
  function DocRefs(fs: seq<Func>): seq<string>
  {
    seq(|fs|, i requires 0 <= i < |fs| => DocRef(fs[i].doc, fs[i].name))
  }

  function Entries(fs: seq<Func>): seq<string>
  {
    seq(|fs|, i requires 0 <= i < |fs| => MethodsTableEntry(fs[i].name, DocRef(fs[i].doc, fs[i].name)))
  }

  /** Everything `_generate_methods_table` writes. */
  function TableChunks(moduleName: string, fs: seq<Func>): seq<string>
  {
    DocDefs(fs) + [MethodsTableStart(moduleName)] + Entries(fs) + [MethodsTableEnd()]
  }

  lemma {:induction false} DocDefsSnoc(fs: seq<Func>, i: nat)
    requires i < |fs|
    ensures DocDefs(fs[..i + 1]) == DocDefs(fs[..i]) + DocChunks(fs[i].doc, fs[i].name)
  {
    assert fs[..i + 1][..i] == fs[..i];
  }

  lemma {:induction false} DocRefsSnoc(fs: seq<Func>, i: nat)
    requires i < |fs|
    ensures DocRefs(fs[..i + 1]) == DocRefs(fs[..i]) + [DocRef(fs[i].doc, fs[i].name)]
  {
  }

  lemma {:induction false} EntriesSnoc(fs: seq<Func>, i: nat)
    requires i < |fs|
    ensures Entries(fs[..i + 1]) == Entries(fs[..i]) + [MethodsTableEntry(fs[i].name, DocRef(fs[i].doc, fs[i].name))]
  {
  }

  /** The first loop of `_generate_methods_table`: each function's
      docstring definition is written, and its reference collected. */
  method WriteDocstrings(funcs: seq<Func>, out: Stream) returns (docstrings: seq<string>)
    modifies out
    ensures docstrings == DocRefs(funcs)
    ensures out.chunks == old(out.chunks) + DocDefs(funcs)
  {
    docstrings := [];
    for i := 0 to |funcs|
      invariant docstrings == DocRefs(funcs[..i])
      invariant out.chunks == old(out.chunks) + DocDefs(funcs[..i])
    {
      DocDefsSnoc(funcs, i);
      DocRefsSnoc(funcs, i);
      AppendAssoc(old(out.chunks), DocDefs(funcs[..i]), DocChunks(funcs[i].doc, funcs[i].name));
      var doc := DocstringLiteral(funcs[i].doc, funcs[i].name, out);
      docstrings := docstrings + [doc];
    }
    assert funcs[..|funcs|] == funcs;
  }

  /** The second loop of `_generate_methods_table`: one row per function,
      paired with the reference the first loop collected for it. */
  method WriteEntries(funcs: seq<Func>, docstrings: seq<string>, out: Stream)
    requires docstrings == DocRefs(funcs)
    modifies out
    ensures out.chunks == old(out.chunks) + Entries(funcs)
  {
    for j := 0 to |funcs|
      invariant out.chunks == old(out.chunks) + Entries(funcs[..j])
    {
      EntriesSnoc(funcs, j);
      AppendAssoc(old(out.chunks), Entries(funcs[..j]), [MethodsTableEntry(funcs[j].name, DocRef(funcs[j].doc, funcs[j].name))]);
      assert docstrings[j] == DocRef(funcs[j].doc, funcs[j].name);
      out.Write(MethodsTableEntry(funcs[j].name, docstrings[j]));
    }
    assert funcs[..|funcs|] == funcs;
  }

  /** Four pieces appended to a prefix at once, or one after another. */
  lemma {:induction false} AppendFour(pre: seq<string>, a: seq<string>, b: seq<string>, c: seq<string>, d: seq<string>)
    ensures pre + (a + b + c + d) == pre + a + b + c + d
  {
  }

  /** `_generate_methods_table(module_name, funcs, out)`. */
  method GenerateMethodsTable(moduleName: string, funcs: seq<Func>, out: Stream)
    modifies out
    ensures out.chunks == old(out.chunks) + TableChunks(moduleName, funcs)
  {
    var docstrings := WriteDocstrings(funcs, out);
    out.Write(MethodsTableStart(moduleName));
    WriteEntries(funcs, docstrings, out);
    out.Write(MethodsTableEnd());
    AppendFour(old(out.chunks), DocDefs(funcs), [MethodsTableStart(moduleName)], Entries(funcs), [MethodsTableEnd()]);
  }

  // ---------------------------------------------------------------------
  // Properties of the table

  /** The layout: the docstring definitions, the table's opening line,
      one row per function, and the sentinel row last. */
  lemma {:induction false} TableLayout(moduleName: string, fs: seq<Func>)
    ensures var chunks, d := TableChunks(moduleName, fs), |DocDefs(fs)|;
      && |chunks| == d + |fs| + 2
      && chunks[..d] == DocDefs(fs)
      && chunks[d] == MethodsTableStart(moduleName)
      && chunks[|chunks| - 1] == MethodsTableEnd()
  {
    Bracketed(DocDefs(fs), MethodsTableStart(moduleName), Entries(fs), MethodsTableEnd());
  }

  /** Row `i` of the table, after the definitions and the opening line,
      names function `i` and its own docstring reference. */
  lemma {:induction false} TableRow(moduleName: string, fs: seq<Func>, i: nat)
    requires i < |fs|
    ensures var chunks, j := TableChunks(moduleName, fs), |DocDefs(fs)| + 1 + i;
      j < |chunks| && chunks[j] == MethodsTableEntry(fs[i].name, DocRef(fs[i].doc, fs[i].name))
  {
    BracketedAt(DocDefs(fs), MethodsTableStart(moduleName), Entries(fs), MethodsTableEnd(), i);
    assert Entries(fs)[i] == MethodsTableEntry(fs[i].name, DocRef(fs[i].doc, fs[i].name));
  }

  /** Index `i` of `b` in `a + [x] + b + [y]`. */
  lemma {:induction false} BracketedAt(a: seq<string>, x: string, b: seq<string>, y: string, i: nat)
    requires i < |b|
    ensures |a| + 1 + i < |a + [x] + b + [y]| && (a + [x] + b + [y])[|a| + 1 + i] == b[i]
  {
  }

  /** Positions in `a + [x] + b + [y]`. */
  lemma {:induction false} Bracketed(a: seq<string>, x: string, b: seq<string>, y: string)
    ensures var s := a + [x] + b + [y];
      && |s| == |a| + |b| + 2
      && s[..|a|] == a
      && s[|a|] == x
      && s[|s| - 1] == y
  {
  }

  lemma {:induction false} DocChunksNotSentinel(doc: Wrappers.Option<string>, owner: string)
    ensures MethodsTableEnd() !in DocChunks(doc, owner)
  {
    var chunks := DocChunks(doc, owner);
    forall c | c in chunks ensures c != MethodsTableEnd() {
      assert c[0] != ' ';
    }
  }

  lemma {:induction false} DocDefsNotSentinel(fs: seq<Func>)
    ensures MethodsTableEnd() !in DocDefs(fs)
    decreases |fs|
  {
    if fs != [] {
      var last := fs[|fs| - 1];
      DocDefsNotSentinel(fs[..|fs| - 1]);
      DocChunksNotSentinel(last.doc, last.name);
    }
  }

  lemma {:induction false} EntriesNotSentinel(fs: seq<Func>)
    ensures MethodsTableEnd() !in Entries(fs)
  {
    forall i | 0 <= i < |fs| ensures Entries(fs)[i] != MethodsTableEnd() {
      assert Entries(fs)[i][5] == '"';
    }
  }

  /** The table ends with exactly one sentinel row: it is the last chunk
      and appears nowhere else. */
  lemma {:induction false} SentinelOnce(moduleName: string, fs: seq<Func>)
    ensures var chunks := TableChunks(moduleName, fs);
      chunks[|chunks| - 1] == MethodsTableEnd() && multiset(chunks)[MethodsTableEnd()] == 1
  {
    DocDefsNotSentinel(fs);
    EntriesNotSentinel(fs);
    var end := MethodsTableEnd();
    assert MethodsTableStart(moduleName)[0] != end[0];
    assert multiset(DocDefs(fs))[end] == 0;
    assert multiset(Entries(fs))[end] == 0;
  }

  /** Every macro a row refers to is defined before the table opens: the
      `#define` line of a multi-line docstring's macro is among the
      definitions written first. */
  lemma {:induction false} MacrosDefinedBeforeUse(fs: seq<Func>, i: nat)
    requires i < |fs|
    requires fs[i].doc.Some? && IsMultiLine(fs[i].doc.value)
    ensures DefineLine(DocRef(fs[i].doc, fs[i].name)) in DocDefs(fs)
    decreases |fs|
  {
    var last := |fs| - 1;
    assert DocDefs(fs) == DocDefs(fs[..last]) + DocChunks(fs[last].doc, fs[last].name);
    if i == last {
      assert DocChunks(fs[i].doc, fs[i].name)[0] == DefineLine(DocRef(fs[i].doc, fs[i].name));
    } else {
      assert fs[..last][i] == fs[i];
      MacrosDefinedBeforeUse(fs[..last], i);
    }
  }
}
