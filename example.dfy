/** The example extension module `example`, with the callables `process`
    and `tabulate`: what the model emits for them agrees with the generated
    C file that comes with the generator. */
module Example {
  import opened Wrappers
  import opened Text
  import opened Signature
  import opened FormatSpec
  import opened Docstring
  import opened FunctionEmitter
  import opened Extmod

  /** `process(x, /, y, *, z, alpha=None, beta=1)`. */
  function ProcessParams(): seq<Param>
  {
    [ Param("x", PositionalOnly, false),
      Param("y", PositionalOrKeyword, false),
      Param("z", KeywordOnly, false),
      Param("alpha", KeywordOnly, true),
      Param("beta", KeywordOnly, true) ]
  }

  /** `tabulate(x)`. */
  function TabulateParams(): seq<Param>
  {
    [Param("x", PositionalOrKeyword, false)]
  }

  /** The normalised docstring of `process`: three lines, the middle one
      empty. */
  function ProcessDoc(): string
  {
    "process" + "(x, /, y, " + "*, z, alpha, " + "beta)" + "\n" + "\n"
    + "This is " + "the " + "docstring " + "for " + "process()."
  }

  function TabulateDoc(): string
  {
    "Docstring " + "for " + "tabulate."
  }

  /** The normalised docstring of the module: three lines, the middle one
      empty. */
  function ExampleModuleDoc(): string
  {
    "Docstring " + "for the " + "example " + "module." + "\n" + "\n"
    + "The module " + "defines " + "the " + "functions " + "process() " + "and " + "tabulate()."
  }

  /** The format codes of the two functions. */
  lemma {:induction false} ExampleFormatCodes()
    ensures FormatCode(ProcessParams(), "process") == "OOO|$OO" + ":process"
    ensures FormatCode(TabulateParams(), "tabulate") == "O" + ":tabulate"
  {
    var ps := ProcessParams();
    assert FirstKwDefault(ps[3..]) == Some(0);
    assert FirstKwDefault(ps[2..]) == Some(1);
    assert FirstKwDefault(ps[1..]) == Some(2);
    assert FirstKwDefault(ps) == Some(3);
    assert Units(3) == "OOO" && Units(2) == "OO";
    assert FirstKwDefault(TabulateParams()[1..]) == None;
    assert Units(1) == "O";
  }

  /** The keyword lists: the positional-only `x` of `process` has an empty
      entry, every other parameter its name. */
  lemma {:induction false} ExampleKeywordLists()
    ensures KwList(ProcessParams()) == ["", "y", "z", "alpha", "beta"]
    ensures KwList(TabulateParams()) == ["x"]
  {
  }

  /** The items of `process`'s keyword array: its entries quoted, the
      first one empty (the array then ends with `NULL`). */
  lemma {:induction false} ProcessKwArray()
    ensures Quoted(KwList(ProcessParams())) == ["\"\"", "\"y\"", "\"z\"", "\"alpha\"", "\"beta\""]
  {
    ExampleKeywordLists();
    assert QuoteWrap("") == "\"\"" && QuoteWrap("y") == "\"y\"" && QuoteWrap("z") == "\"z\"";
    assert QuoteWrap("alpha") == "\"alpha\"" && QuoteWrap("beta") == "\"beta\"";
  }

  /** The keyword array and the parse call of `tabulate`, line by line. */
  lemma {:induction false} TabulateParseCall()
    ensures KwArrayLineAsWritten(KwList(TabulateParams())) == KwArrayOpen() + "\"x\"" + ", NULL};\n"
    ensures ParseCallAsWritten(FormatCode(TabulateParams(), "tabulate"), TabulateParams())
      == [ParseCallOpen("O" + ":tabulate") + ",\n", RefsIndent() + "&x" + ")) {\n"]
  {
    ExampleKeywordLists();
    ExampleFormatCodes();
    assert QuoteWrap("x") == "\"x\"" && "&" + "x" == "&x";
    assert Quoted(["x"]) == ["\"x\""];
    assert Refs(TabulateParams()) == ["&x"];
  }

  /** The locals of `process`: `Py_None` for the two keyword defaults,
      `NULL` for the rest. */
  lemma {:induction false} ProcessLocals()
    ensures Declarations(ProcessParams()) ==
      [ "    " + "PyObject *" + "x" + " = NULL;\n",
        "    " + "PyObject *" + "y" + " = NULL;\n",
        "    " + "PyObject *" + "z" + " = NULL;\n",
        "    " + "PyObject *" + "alpha" + " = Py_None;\n",
        "    " + "PyObject *" + "beta" + " = Py_None;\n" ]
  {
  }

  /** `process` has a multi-line docstring, referred to by its macro. */
  lemma {:induction false} ProcessDocRef(d: string)
    requires d == ProcessDoc()
    ensures DocRef(Some(d), "process") == "PROCESS" + "_DOCSTRING"
  {
    var k := |"process" + "(x, /, y, " + "*, z, alpha, " + "beta)"|;
    assert d[k] == '\n' && k < |d| - 1;
    ManyLinesIff(d);
    assert Upper("process") == "PROCESS";
  }

  /** `tabulate`'s one-line docstring is inlined in quotes. */
  lemma {:induction false} TabulateDocRef(d: string)
    requires d == TabulateDoc()
    ensures DocRef(Some(d), "tabulate") == "\"" + d + "\""
  {
    assert '\n' !in "Docstring " && '\n' !in "for " && '\n' !in "tabulate.";
    assert '\n' !in d;
    ManyLinesIff(d);
  }

  /** The module docstring has more than one line. */
  lemma {:induction false} ExampleModuleDocLines(d: string)
    requires d == ExampleModuleDoc()
    ensures IsMultiLine(d)
  {
    var k := |"Docstring " + "for the " + "example " + "module."|;
    assert d[k] == '\n' && k < |d| - 1;
    ManyLinesIff(d);
  }

  /** The multi-line module docstring of `example` is referred to by
      `EXAMPLE_MODULE_DOCSTRING`, and the C file is `examplemodule.c`. */
  lemma {:induction false} ExampleModuleNames(d: string)
    requires d == ExampleModuleDoc()
    ensures DocRef(Some(d), ModuleOwner("example")) == "EXAMPLE" + "_MODULE" + "_DOCSTRING"
    ensures DefaultFilename("example") == "example" + "module.c"
  {
    ExampleModuleDocLines(d);
    ModuleDocMacro("example", d);
    assert Upper("example") == "EXAMPLE";
  }
}
