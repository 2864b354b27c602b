/** The template constants of the generator, with their `.format`
    substitutions applied (a doubled brace in a template is one brace in
    the output). The lemmas after the templates name the C names each one
    declares or refers to; those references are what tie the parts of the
    file together (the table the module struct names, the struct the init
    function creates, the function a table row points at).

    Long string literals are written as concatenations of short pieces:
    the verifier reasons about a literal one character at a time wherever
    its length or a position in it is needed, and short pieces keep that
    reasoning cheap. */
module Templates {
  import opened Text

  // ---------------------------------------------------------------------
  // Occurrences

  /** `t` occurs in `s` starting at index `i`. */
  predicate OccursAt(t: string, s: string, i: nat)
  {
    i + |t| <= |s| && s[i..i + |t|] == t
  }

  predicate Occurs(t: string, s: string)
  {
    exists i :: 0 <= i <= |s| && OccursAt(t, s, i)
  }

  lemma {:induction false} AtStart(t: string, b: string)
    ensures OccursAt(t, t + b, 0)
  {
  }

  lemma {:induction false} InMiddle(a: string, t: string, b: string)
    ensures OccursAt(t, a + t + b, |a|)
  {
  }

  lemma {:induction false} Extend(t: string, s: string, i: nat, x: string)
    requires OccursAt(t, s, i)
    ensures OccursAt(t, s + x, i)
  {
    assert (s + x)[i..i + |t|] == s[i..i + |t|];
  }

  /** Where the two inserted names of `a + t1 + b + t2 + c` are. */
  lemma {:induction false} InChain2(a: string, t1: string, b: string, t2: string, c: string)
    ensures OccursAt(t1, a + t1 + b + t2 + c, |a|)
    ensures OccursAt(t2, a + t1 + b + t2 + c, |a + t1 + b|)
  {
    InMiddle(a, t1, b);
    Extend(t1, a + t1 + b, |a|, t2);
    Extend(t1, a + t1 + b + t2, |a|, c);
    InMiddle(a + t1 + b, t2, c);
  }

  /** Where the four inserted names of `a + t1 + b + t2 + c + t3 + d + t4 + e` are. */
  lemma {:induction false} InChain4(a: string, t1: string, b: string, t2: string, c: string,
                                    t3: string, d: string, t4: string, e: string)
    ensures Occurs(t1, a + t1 + b + t2 + c + t3 + d + t4 + e)
    ensures Occurs(t2, a + t1 + b + t2 + c + t3 + d + t4 + e)
    ensures Occurs(t3, a + t1 + b + t2 + c + t3 + d + t4 + e)
    ensures Occurs(t4, a + t1 + b + t2 + c + t3 + d + t4 + e)
  {
    var s3 := a + t1 + b + t2 + c;
    InChain2(a, t1, b, t2, c);
    InChain2(s3, t3, d, t4, e);
    Extend(t1, s3, |a|, t3);
    Extend(t1, s3 + t3, |a|, d);
    Extend(t1, s3 + t3 + d, |a|, t4);
    Extend(t1, s3 + t3 + d + t4, |a|, e);
    Extend(t2, s3, |a + t1 + b|, t3);
    Extend(t2, s3 + t3, |a + t1 + b|, d);
    Extend(t2, s3 + t3 + d, |a + t1 + b|, t4);
    Extend(t2, s3 + t3 + d + t4, |a + t1 + b|, e);
  }

  // ---------------------------------------------------------------------
  // The names the templates share

  /** The module definition struct's C name. */
  function StructName(moduleName: string): string
  {
    moduleName + "module"
  }

  /** The methods table's C name. */
  function TableName(moduleName: string): string
  {
    moduleName + "_methods"
  }

  /** The init function's C name, the one CPython looks up on import. */
  function InitName(moduleName: string): string
  {
    "PyInit_" + moduleName
  }

  function SsizeDefine(): string
  {
    "#define " + "PY_SSIZE_" + "T_CLEAN"
  }

  function PythonInclude(): string
  {
    "#include " + "<Python.h>"
  }

  /** A binding's C signature: it takes positional and keyword arguments. */
  function CSignature(funcName: string): string
  {
    funcName + "(PyObject " + "*self, " + "PyObject " + "*args, " + "PyObject " + "*kwargs)"
  }

  /** A table row's pointer to the binding named `funcName`. */
  function FunctionPointer(funcName: string): string
  {
    "(PyCFunction)" + "(void(*)" + "(void)) " + funcName
  }

  /** The calling convention that matches `CSignature`. */
  function CallFlags(): string
  {
    "METH_" + "VARARGS | " + "METH_" + "KEYWORDS"
  }

  function ReturnNone(): string
  {
    "Py_RETURN" + "_NONE;"
  }

  function ReturnModule(): string
  {
    "return " + "module;"
  }

  /** The row that ends the methods table. */
  function SentinelRow(): string
  {
    "    " + "{NULL, " + "NULL, 0, " + "NULL}\n"
  }

  // ---------------------------------------------------------------------
  // The templates

  function Header(): string
  {
    "\n" + SsizeDefine() + "\n" + PythonInclude() + HeaderIncludes()
  }

  function HeaderIncludes(): string
  {
    "\n" + "\n" + "#include " + "<stddef.h>\n"
    + "\n"
    + "// Only " + "need " + "stdio.h " + "for the " + "demo code " + "that " + "prints " + "the " + "arguments.\n"
    + "#include " + "<stdio.h>\n"
  }

  function InitStart(moduleName: string): string
  {
    "\nPyMODINIT" + "_FUNC\n" + InitName(moduleName) + InitCreate() + ("&" + StructName(moduleName)) + InitCheck()
  }

  function InitCreate(): string
  {
    "(void)\n"
    + "{\n"
    + "    " + "PyObject " + "*module;\n"
    + "\n"
    + "    " + "module = " + "PyModule_" + "Create("
  }

  function InitCheck(): string
  {
    ");\n"
    + "    " + "if (module " + "== NULL) {\n"
    + "        " + "return " + "NULL;\n"
    + "    }\n"
  }

  function InitEnd(): string
  {
    "\n" + "    " + ReturnModule() + "\n" + "}\n"
  }

  function FuncStart(funcName: string): string
  {
    "\nstatic " + "PyObject *\n" + CSignature(funcName) + "\n{\n"
  }

  function FuncEnd(): string
  {
    "\n"
    + "    " + "// The " + "demo code " + "returns " + "None; " + "modify as " + "needed.\n"
    + "    " + ReturnNone() + "\n" + "}\n"
  }

  function MethodsTableStart(moduleName: string): string
  {
    "\nstatic " + "PyMethodDef " + TableName(moduleName) + ("[] " + "= {\n")
  }

  function MethodsTableEntry(funcName: string, doc: string): string
  {
    "    {" + QuoteWrap(funcName) + ", " + FunctionPointer(funcName) + ", " + CallFlags() + (",\n" + "     ") + doc + "},\n"
  }

  /** The sentinel row that ends the methods table, and the table's close. */
  function MethodsTableEnd(): string
  {
    SentinelRow() + "};\n"
  }

  function ModuleDefinitionStruct(moduleName: string, moduleDoc: string): string
  {
    "\nstatic " + "struct " + "PyModuleDef " + StructName(moduleName)
    + (" = {\n" + "    " + "PyModuleDef" + "_HEAD_INIT,\n" + "    ") + QuoteWrap(moduleName)
    + (",\n" + "    ") + moduleDoc
    + (",\n" + "    " + "-1,\n" + "    ") + TableName(moduleName)
    + ("\n" + "};\n")
  }

  // ---------------------------------------------------------------------
  // What the templates declare and refer to

  /** The file header defines `PY_SSIZE_T_CLEAN` on its second line, just
      before `Python.h` is included, as CPython requires. */
  lemma {:induction false} HeaderDefinesBeforeInclude()
    ensures OccursAt(SsizeDefine(), Header(), 1)
    ensures OccursAt(PythonInclude(), Header(), |SsizeDefine()| + 2)
  {
    InChain2("\n", SsizeDefine(), "\n", PythonInclude(), HeaderIncludes());
  }

  /** The init function is named `PyInit_<module>` and creates the module
      from the struct `<module>module`. */
  lemma {:induction false} InitStartNames(moduleName: string)
    ensures Occurs(InitName(moduleName), InitStart(moduleName))
    ensures Occurs("&" + StructName(moduleName), InitStart(moduleName))
  {
    InChain2("\nPyMODINIT" + "_FUNC\n", InitName(moduleName), InitCreate(), "&" + StructName(moduleName), InitCheck());
  }

  /** The init function ends by returning the module and closing its body. */
  lemma {:induction false} InitEndReturnsModule()
    ensures Occurs(ReturnModule(), InitEnd())
    ensures |InitEnd()| >= 2 && InitEnd()[|InitEnd()| - 2..] == "}\n"
  {
    var a := "\n" + "    ";
    InMiddle(a, ReturnModule(), "\n");
    Extend(ReturnModule(), a + ReturnModule() + "\n", |a|, "}\n");
  }

  /** A binding opens as a static function with the signature that takes
      positional and keyword arguments. */
  lemma {:induction false} FuncStartSignature(funcName: string)
    ensures Occurs(CSignature(funcName), FuncStart(funcName))
  {
    InMiddle("\nstatic " + "PyObject *\n", CSignature(funcName), "\n{\n");
  }

  /** A binding ends by returning `None` and closing its body. */
  lemma {:induction false} FuncEndReturnsNone()
    ensures Occurs(ReturnNone(), FuncEnd())
    ensures |FuncEnd()| >= 2 && FuncEnd()[|FuncEnd()| - 2..] == "}\n"
  {
    var a := "\n"
      + "    " + "// The " + "demo code " + "returns " + "None; " + "modify as " + "needed.\n"
      + "    ";
    InMiddle(a, ReturnNone(), "\n");
    Extend(ReturnNone(), a + ReturnNone() + "\n", |a|, "}\n");
  }

  /** The methods table is declared as `<module>_methods`. */
  lemma {:induction false} TableStartName(moduleName: string)
    ensures Occurs(TableName(moduleName), MethodsTableStart(moduleName))
  {
    InMiddle("\nstatic " + "PyMethodDef ", TableName(moduleName), "[] " + "= {\n");
  }

  /** A function's row gives its Python name in quotes, a pointer to its
      binding, the calling convention of that binding's signature, and its
      docstring reference. */
  lemma {:induction false} EntryNames(funcName: string, doc: string)
    ensures Occurs(QuoteWrap(funcName), MethodsTableEntry(funcName, doc))
    ensures Occurs(FunctionPointer(funcName), MethodsTableEntry(funcName, doc))
    ensures Occurs(CallFlags(), MethodsTableEntry(funcName, doc))
    ensures Occurs(doc, MethodsTableEntry(funcName, doc))
  {
    InChain4("    {", QuoteWrap(funcName), ", ", FunctionPointer(funcName), ", ", CallFlags(), ",\n" + "     ", doc, "},\n");
  }

  /** The table's last chunk is the sentinel row, then the array's close. */
  lemma {:induction false} SentinelRowLast()
    ensures OccursAt(SentinelRow(), MethodsTableEnd(), 0)
    ensures |MethodsTableEnd()| >= 3 && MethodsTableEnd()[|MethodsTableEnd()| - 3..] == "};\n"
  {
    AtStart(SentinelRow(), "};\n");
  }

  /** The module definition struct is declared as `<module>module` and
      gives the module's Python name in quotes, its docstring reference
      and the methods table `<module>_methods`. */
  lemma {:induction false} StructNames(moduleName: string, moduleDoc: string)
    ensures Occurs(StructName(moduleName), ModuleDefinitionStruct(moduleName, moduleDoc))
    ensures Occurs(QuoteWrap(moduleName), ModuleDefinitionStruct(moduleName, moduleDoc))
    ensures Occurs(moduleDoc, ModuleDefinitionStruct(moduleName, moduleDoc))
    ensures Occurs(TableName(moduleName), ModuleDefinitionStruct(moduleName, moduleDoc))
  {
    InChain4("\nstatic " + "struct " + "PyModuleDef ", StructName(moduleName),
      " = {\n" + "    " + "PyModuleDef" + "_HEAD_INIT,\n" + "    ", QuoteWrap(moduleName),
      ",\n" + "    ", moduleDoc,
      ",\n" + "    " + "-1,\n" + "    ", TableName(moduleName),
      "\n" + "};\n");
  }
}
