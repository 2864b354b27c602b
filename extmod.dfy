/** The C file of an extension module (`generate_extmod`): the header, each
    function in input order, the methods table, the module definition
    struct and the module's init function. */
module Extmod {
  import opened Wrappers
  import opened Text
  import opened Signature
  import opened Templates
  import opened Docstring
  import opened FunctionEmitter
  import opened MethodsTable
  import opened Output

  // ---------------------------------------------------------------------
  // The module definition struct

  /** The owner name of the module docstring. */
  function ModuleOwner(moduleName: string): string
  {
    moduleName + "_MODULE"
  }

  /** Everything `_generate_module_definition_struct` writes: the module
      docstring's definition, if any, then the struct naming it. */
  function StructChunks(moduleName: string, moduleDoc: Option<string>): seq<string>
  {
    DocChunks(moduleDoc, ModuleOwner(moduleName))
    + [ModuleDefinitionStruct(moduleName, DocRef(moduleDoc, ModuleOwner(moduleName)))]
  }

  /** `_generate_module_definition_struct(module_name, module_doc, out)`. */
  method GenerateModuleDefinitionStruct(moduleName: string, moduleDoc: Option<string>, out: Stream)
    modifies out
    ensures out.chunks == old(out.chunks) + StructChunks(moduleName, moduleDoc)
  {
    var doc := DocstringLiteral(moduleDoc, ModuleOwner(moduleName), out);
    out.Write(ModuleDefinitionStruct(moduleName, doc));
  }

  /** A multi-line module docstring is referred to by the macro
      `<MODULE NAME IN UPPER CASE>_MODULE_DOCSTRING`. */
  lemma {:induction false} ModuleDocMacro(moduleName: string, d: string)
    requires IsMultiLine(d)
    ensures DocRef(Some(d), ModuleOwner(moduleName)) == Upper(moduleName) + "_MODULE_DOCSTRING"
  {
    UpperAppend(moduleName, "_MODULE");
    assert Upper("_MODULE") == "_MODULE";
  }

  /** The module name has passed the check of `generate_extmod`, so every
      C name made from it is an identifier too: the struct, the methods
      table, the init function and the module docstring's macro. */
  lemma {:induction false} ModuleCNames(moduleName: string)
    requires IsIdentifier(moduleName)
    ensures IsIdentifier(StructName(moduleName))
    ensures IsIdentifier(TableName(moduleName))
    ensures IsIdentifier(InitName(moduleName))
    ensures IsIdentifier(MacroName(ModuleOwner(moduleName)))
  {
    assert IdentChars("module") && IdentChars("_methods") && IdentChars("_MODULE") && IdentChars("_DOCSTRING");
    IdentifierAppend(moduleName, "module");
    IdentifierAppend(moduleName, "_methods");
    IdentifierChars(moduleName);
    assert IsIdentifier("PyInit_");
    IdentifierAppend("PyInit_", moduleName);
    IdentifierAppend(moduleName, "_MODULE");
    UpperIdentifier(ModuleOwner(moduleName));
    IdentifierAppend(Upper(ModuleOwner(moduleName)), "_DOCSTRING");
  }

  // ---------------------------------------------------------------------
  // The whole file

  /** What `_generate_function` writes for each function, in order. */
  function FunctionParts(fs: seq<Func>): seq<seq<string>>
  {
    seq(|fs|, i requires 0 <= i < |fs| => FunctionChunks(fs[i]))
  }

  /** Everything `generate_extmod` writes to the C file, in order. */
  function ExtmodChunks(moduleName: string, moduleDoc: Option<string>, fs: seq<Func>): seq<string>
  {
    [Header()] + Flatten(FunctionParts(fs)) + TableChunks(moduleName, fs) + StructChunks(moduleName, moduleDoc)
    + [InitStart(moduleName), InitEnd()]
  }

  datatype Error = InvalidName(name: string)

  /** A written C file: its name and the chunks written to it, in order. */
  datatype CFile = CFile(filename: string, chunks: seq<string>)

  /** The C file name used when none is given. */
  function DefaultFilename(moduleName: string): string
  {
    moduleName + "module.c"
  }

  /** The loop of `generate_extmod` over the functions: each one's code,
      in input order. */
  method WriteFunctions(fs: seq<Func>, out: Stream)
    modifies out
    ensures out.chunks == old(out.chunks) + Flatten(FunctionParts(fs))
  {
    ghost var parts := FunctionParts(fs);
    for i := 0 to |fs|
      invariant out.chunks == old(out.chunks) + Flatten(parts[..i])
    {
      FlattenSnoc(parts, i);
      AppendAssoc(old(out.chunks), Flatten(parts[..i]), parts[i]);
      GenerateFunction(fs[i], out);
    }
    assert parts[..|fs|] == parts;
  }

  /** The last two writes of `generate_extmod`. */
  lemma {:induction false} AppendLastTwo(pre: seq<string>, x: string, y: string)
    ensures pre + [x] + [y] == pre + [x, y]
  {
    assert [x] + [y] == [x, y];
  }

  /** `generate_extmod(module_name, module_doc, funcs, c_filename)`, its C
      file only: a name that is not an identifier is an error and nothing
      is written; otherwise the file (by default `<name>module.c`) gets the
      header, each function in order, the methods table, the module struct
      and the init function. */
  method GenerateExtmod(moduleName: string, moduleDoc: Option<string>, funcs: FuncsArg, cFilename: Option<string>)
    returns (r: Result<CFile, Error>)
    ensures r.Failure? <==> !IsIdentifier(moduleName)
    ensures r.Failure? ==> r.error == InvalidName(moduleName)
    ensures r.Success? ==> r.value.filename == (if cFilename.Some? then cFilename.value else DefaultFilename(moduleName))
    ensures r.Success? ==> r.value.chunks == ExtmodChunks(moduleName, moduleDoc, FuncList(funcs))
  {
    if !IsIdentifier(moduleName) {
      return Failure(InvalidName(moduleName));
    }
    var filename := if cFilename.Some? then cFilename.value else DefaultFilename(moduleName);
    var out := new Stream();
    out.Write(Header());
    assert out.chunks == [Header()];
    var fs := FuncList(funcs);
    WriteFunctions(fs, out);
    GenerateMethodsTable(moduleName, fs, out);
    GenerateModuleDefinitionStruct(moduleName, moduleDoc, out);
    out.Write(InitStart(moduleName));
    out.Write(InitEnd());
    AppendLastTwo([Header()] + Flatten(FunctionParts(fs)) + TableChunks(moduleName, fs) + StructChunks(moduleName, moduleDoc),
      InitStart(moduleName), InitEnd());
    return Success(CFile(filename, out.chunks));
  }

  // ---------------------------------------------------------------------
  // Properties of the file

  /** A single function is treated as a one-element list: the file holds
      exactly that function's code. */
  lemma {:induction false} SingleFunction(f: Func)
    ensures FuncList(Single(f)) == [f]
    ensures Flatten(FunctionParts([f])) == FunctionChunks(f)
  {
    var parts := FunctionParts([f]);
    FlattenSnoc(parts, 0);
    assert parts[..0] == [] && parts[..1] == parts;
  }

  /** Where function `i`'s code starts in the file. */
  function FunctionOffset(fs: seq<Func>, i: nat): nat
    requires i <= |fs|
  {
    1 + |Flatten(FunctionParts(fs)[..i])|
  }

  /** Everything `generate_extmod` writes after the functions' code. */
  function AfterFunctions(moduleName: string, moduleDoc: Option<string>, fs: seq<Func>): seq<string>
  {
    TableChunks(moduleName, fs) + StructChunks(moduleName, moduleDoc) + [InitStart(moduleName), InitEnd()]
  }

  lemma {:induction false} ExtmodSplit(moduleName: string, moduleDoc: Option<string>, fs: seq<Func>)
    ensures ExtmodChunks(moduleName, moduleDoc, fs)
      == [Header()] + Flatten(FunctionParts(fs)) + AfterFunctions(moduleName, moduleDoc, fs)
  {
    var t, u, w := TableChunks(moduleName, fs), StructChunks(moduleName, moduleDoc), [InitStart(moduleName), InitEnd()];
    AppendAssoc([Header()] + Flatten(FunctionParts(fs)) + t, u, w);
    AppendAssoc([Header()] + Flatten(FunctionParts(fs)), t + u, w);
    AppendAssoc([Header()] + Flatten(FunctionParts(fs)), t, u);
  }

  /** Part `i` of `h + Flatten(parts) + rest` ends where part `i + 1`
      starts, within the whole. */
  lemma {:induction false} PartEnds<T>(h: seq<T>, parts: seq<seq<T>>, rest: seq<T>, i: nat)
    requires i < |parts|
    ensures |h| + |Flatten(parts[..i])| + |parts[i]| == |h| + |Flatten(parts[..i + 1])|
    ensures |Flatten(parts[..i + 1])| <= |Flatten(parts)|
    ensures |h| + |Flatten(parts)| <= |h + Flatten(parts) + rest|
  {
    FlattenSplit(parts, i);
  }

  /** Function `i`'s code ends where function `i + 1`'s starts, and all of
      the functions' code lies within the file. */
  lemma {:induction false} FunctionSpan(moduleName: string, moduleDoc: Option<string>, fs: seq<Func>, i: nat)
    requires i < |fs|
    ensures FunctionOffset(fs, i) + |FunctionChunks(fs[i])| == FunctionOffset(fs, i + 1)
    ensures FunctionOffset(fs, i + 1) <= FunctionOffset(fs, |fs|) <= |ExtmodChunks(moduleName, moduleDoc, fs)|
  {
    var parts := FunctionParts(fs);
    ExtmodSplit(moduleName, moduleDoc, fs);
    PartEnds([Header()], parts, AfterFunctions(moduleName, moduleDoc, fs), i);
    assert parts[..|fs|] == parts;
    assert parts[i] == FunctionChunks(fs[i]);
  }

  // ---------------------------------------------------------------------
  // Declared before use

  /** Where the methods table's opening, the module struct and the init
      function's start lie in the file. */
  lemma {:induction false} FilePositions(moduleName: string, moduleDoc: Option<string>, fs: seq<Func>)
    ensures var chunks, t := ExtmodChunks(moduleName, moduleDoc, fs), FunctionOffset(fs, |fs|) + |DocDefs(fs)|;
      && t < |chunks| - 3
      && chunks[t] == MethodsTableStart(moduleName)
      && chunks[|chunks| - 3] == ModuleDefinitionStruct(moduleName, DocRef(moduleDoc, ModuleOwner(moduleName)))
      && chunks[|chunks| - 2] == InitStart(moduleName)
  {
    var parts := FunctionParts(fs);
    assert parts[..|fs|] == parts;
    TableLayout(moduleName, fs);
    var st := StructChunks(moduleName, moduleDoc);
    FourParts([Header()] + Flatten(parts), TableChunks(moduleName, fs), st, [InitStart(moduleName), InitEnd()],
      |DocDefs(fs)|, |st| - 1, 0);
  }

  /** The C names that tie the file together are declared before the code
      that refers to them: the methods table opens before the module struct
      that names it, and the struct comes right before the init function
      that creates the module from it. */
  lemma {:induction false} DeclaredBeforeUse(moduleName: string, moduleDoc: Option<string>, fs: seq<Func>)
    ensures var chunks, t := ExtmodChunks(moduleName, moduleDoc, fs), FunctionOffset(fs, |fs|) + |DocDefs(fs)|;
      && t < |chunks| - 3
      && chunks[t] == MethodsTableStart(moduleName) && Occurs(TableName(moduleName), chunks[t])
      && Occurs(TableName(moduleName), chunks[|chunks| - 3]) && Occurs(StructName(moduleName), chunks[|chunks| - 3])
      && Occurs("&" + StructName(moduleName), chunks[|chunks| - 2])
  {
    FilePositions(moduleName, moduleDoc, fs);
    TableStartName(moduleName);
    StructNames(moduleName, DocRef(moduleDoc, ModuleOwner(moduleName)));
    InitStartNames(moduleName);
  }

  /** Positions in `a + b + c + d`. */
  lemma {:induction false} FourParts<T>(a: seq<T>, b: seq<T>, c: seq<T>, d: seq<T>, i: nat, j: nat, k: nat)
    requires i < |b| && j < |c| && k < |d|
    ensures var s := a + b + c + d;
      && |s| == |a| + |b| + |c| + |d|
      && s[|a| + i] == b[i]
      && s[|a| + |b| + j] == c[j]
      && s[|a| + |b| + |c| + k] == d[k]
  {
  }
}
